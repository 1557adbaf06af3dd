/**
 Sequences of service calls. Each call is a schedule of the protocol, so the tables that any
 sequence of calls leaves belong to a reachable world, and all results about those hold of them.
 */
module Calls {
  import opened Basics
  import opened Model
  import opened Statuses
  import opened Text
  import opened Tables
  import opened Decisions
  import opened Protocol
  import opened Reachability
  import opened ServiceSteps
  import Creation
  import Outcomes
  import Services

  /** What happens to the service: a call with the provider's replies, a claim, or something outside it. */
  datatype Call =
    | Passes(elapsed: nat)
    | Moves(key: PaymentKey, raw: string)
    | Creates(idempotency: string, cmd: CreateCommand, order: Services.Reply<Services.NewOrderReply>, at: Time)
    | Gets(key: PaymentKey, status: Services.Reply<string>)
    | Cancels(key: PaymentKey, closed: Services.Reply<()>)
    | Hooks(key: PaymentKey, hook: Hook, at: Time, stamp: Time)
    | Claims(keys: seq<PaymentKey>, locked: set<PaymentKey>)
    | Reconciles(payment: Payment, answer: Services.Reply<Model.Answer>, at: Time, stamp: Time)

  /** A stored order of a known connection. */
  predicate Knows(s: World, k: PaymentKey) {
    k.connection in s.config.connections && k in s.db.orders
  }

  /** The provider may answer so, and the service's clock does not lead. */
  ghost predicate Possible(s: World, c: Call) {
    match c
    case Passes(_) => true
    case Moves(k, raw) => Enabled(s, ProviderMoves(k, raw))
    case Creates(_, _, _, at) => at <= s.now
    case Gets(k, reply) => reply.Answer? && Knows(s, k) ==> Held(s.provider, k, reply.value)
    case Cancels(k, reply) => reply.Answer? && Knows(s, k) ==> k in s.provider && MayMove(s.provider[k], "PAY_CLOSED")
    case Hooks(k, hook, at, stamp) => Enabled(s, HookFind(k, hook)) && at <= stamp <= s.now
    case Claims(keys, locked) => Enabled(s, ClaimBatch(keys, locked))
    case Reconciles(p, reply, at, stamp) =>
      && Runs(s, PollClaimed(p)) && at <= stamp <= s.now
      && (reply.Answer? ==> Enabled(s, PollQuery(PollClaimed(p), reply.value)))
  }

  /** The tables a call leaves. */
  function After(config: Config, db: Db, now: Time, c: Call): Db {
    match c
    case Passes(_) => db
    case Moves(_, _) => db
    case Creates(key, cmd, reply, at) => Services.AfterCreate(config, db, now, key, cmd, reply, at)
    case Gets(k, reply) => Services.AfterGet(config, db, now, k, reply)
    case Cancels(k, reply) => Services.AfterCancel(config, db, now, k, reply)
    case Hooks(k, hook, at, stamp) =>
      if k in db.orders then Services.AfterHook(db, now, Snapshot(k, db.orders[k]), hook, at, stamp) else db
    case Claims(keys, _) => Claim(db, now, keys)
    case Reconciles(p, reply, at, stamp) => Services.AfterReconcile(config.sha, db, now, p, reply, at, stamp)
  }

  function Later(now: Time, c: Call): Time {
    if c.Passes? then now + c.elapsed else now
  }

  ghost predicate Schedules(s: World, c: Call, run: seq<Action>) {
    Valid(s, run) && Run(s, run).db == After(s.config, s.db, s.now, c) && Run(s, run).now == Later(s.now, c)
  }

  lemma OneStep(s: World, a: Action)
    requires Enabled(s, a)
    ensures Valid(s, [a]) && Run(s, [a]) == Apply(s, a)
  {
    Prepend(s, a, []);
    assert [a] + [] == [a];
  }

  lemma NothingChanges(s: World, c: Call)
    requires After(s.config, s.db, s.now, c) == s.db && !c.Passes?
    ensures Schedules(s, c, [])
  {
  }

  lemma GetsSchedules(s: World, k: PaymentKey, reply: Services.Reply<string>) returns (run: seq<Action>)
    requires Possible(s, Gets(k, reply))
    ensures Schedules(s, Gets(k, reply), run)
  {
    if reply.Answer? && Knows(s, k) {
      run := GetIsSchedule(s, k, reply.value);
    } else {
      NothingChanges(s, Gets(k, reply));
      run := [];
    }
  }

  lemma CancelsSchedules(s: World, k: PaymentKey, reply: Services.Reply<()>) returns (run: seq<Action>)
    requires Possible(s, Cancels(k, reply))
    ensures Schedules(s, Cancels(k, reply), run)
  {
    if reply.Answer? && Knows(s, k) {
      run := CancelIsSchedule(s, k);
    } else {
      NothingChanges(s, Cancels(k, reply));
      run := [];
    }
  }

  lemma PassesSchedules(s: World, elapsed: nat) returns (run: seq<Action>)
    ensures Schedules(s, Passes(elapsed), run)
  {
    run := [Tick(elapsed)];
    OneStep(s, Tick(elapsed));
  }

  lemma MovesSchedules(s: World, k: PaymentKey, raw: string) returns (run: seq<Action>)
    requires Possible(s, Moves(k, raw))
    ensures Schedules(s, Moves(k, raw), run)
  {
    run := [ProviderMoves(k, raw)];
    OneStep(s, ProviderMoves(k, raw));
  }

  lemma ClaimsSchedules(s: World, keys: seq<PaymentKey>, locked: set<PaymentKey>) returns (run: seq<Action>)
    requires Possible(s, Claims(keys, locked))
    ensures Schedules(s, Claims(keys, locked), run)
  {
    run := [ClaimBatch(keys, locked)];
    OneStep(s, ClaimBatch(keys, locked));
  }

  lemma CreatesSchedules(s: World, key: string, cmd: CreateCommand, reply: Services.Reply<Services.NewOrderReply>,
                         at: Time)
    returns (run: seq<Action>)
    requires Possible(s, Creates(key, cmd, reply, at))
    ensures Schedules(s, Creates(key, cmd, reply, at), run)
  {
    run := CreateIsSchedule(s, key, cmd, reply, at);
  }

  lemma HooksSchedules(s: World, k: PaymentKey, hook: Hook, at: Time, stamp: Time) returns (run: seq<Action>)
    requires Possible(s, Hooks(k, hook, at, stamp))
    ensures Schedules(s, Hooks(k, hook, at, stamp), run)
  {
    run := HookIsSchedule(s, k, hook, at, stamp);
  }

  lemma ReconcilesSchedules(s: World, p: Payment, reply: Services.Reply<Model.Answer>, at: Time, stamp: Time)
    returns (run: seq<Action>)
    requires Possible(s, Reconciles(p, reply, at, stamp))
    ensures Schedules(s, Reconciles(p, reply, at, stamp), run)
  {
    run := ReconcileIsSchedule(s, p, reply, at, stamp);
  }

  /** Every call the provider allows is a schedule of the protocol, from any world. */
  lemma CallSchedules(s: World, c: Call) returns (run: seq<Action>)
    requires Possible(s, c)
    ensures Schedules(s, c, run)
  {
    match c {
      case Passes(elapsed) => run := PassesSchedules(s, elapsed);
      case Moves(k, raw) => run := MovesSchedules(s, k, raw);
      case Claims(keys, locked) => run := ClaimsSchedules(s, keys, locked);
      case Creates(key, cmd, reply, at) => run := CreatesSchedules(s, key, cmd, reply, at);
      case Gets(k, reply) => run := GetsSchedules(s, k, reply);
      case Cancels(k, reply) => run := CancelsSchedules(s, k, reply);
      case Hooks(k, hook, at, stamp) => run := HooksSchedules(s, k, hook, at, stamp);
      case Reconciles(p, reply, at, stamp) => run := ReconcilesSchedules(s, p, reply, at, stamp);
    }
  }

  // ---- Sequences -------------------------------------------------------------------------------

  ghost function ServeRelation(): (World, Call, World) -> bool {
    (s: World, c: Call, t: World) => ServesOne(s, c, t)
  }

  /** The calls run one after the other, each as a schedule, and end in world t. */
  ghost predicate Serves(s: World, calls: seq<Call>, t: World) {
    Path(ServeRelation(), s, calls, t)
  }

  ghost predicate ServesOne(s: World, c: Call, t: World) {
    Possible(s, c) && exists run :: Schedules(s, c, run) && Run(s, run) == t
  }

  function AfterAll(config: Config, db: Db, now: Time, calls: seq<Call>): Db
    decreases |calls|
  {
    if calls == [] then db
    else AfterAll(config, After(config, db, now, calls[0]), Later(now, calls[0]), calls[1..])
  }

  /** A possible call can always be served. */
  lemma CallServes(s: World, c: Call) returns (t: World)
    requires Possible(s, c)
    ensures ServesOne(s, c, t)
  {
    var run := CallSchedules(s, c);
    t := Run(s, run);
  }

  lemma OneReaches(s: World, c: Call, t: World)
    requires Reachable(s) && ServesOne(s, c, t)
    ensures Reachable(t) && t.config == s.config && t.db == After(s.config, s.db, s.now, c) && t.now == Later(s.now, c)
  {
    var run :| Schedules(s, c, run) && Run(s, run) == t;
    ReachableRun(s, run);
    RunKeepsConfig(s, run);
  }

  /** The tables any sequence of calls leaves, call after call, are those of a reachable world. */
  lemma {:induction false} CallsReach(s: World, calls: seq<Call>, t: World)
    requires Reachable(s) && Serves(s, calls, t)
    ensures Reachable(t) && t.db == AfterAll(s.config, s.db, s.now, calls)
    decreases |calls|
  {
    if calls != [] {
      var u :| ServeRelation()(s, calls[0], u) && Path(ServeRelation(), u, calls[1..], t);
      OneReaches(s, calls[0], u);
      CallsReach(u, calls[1..], t);
    }
  }

  /** Whatever calls were served, a possible next one can be served after them. */
  lemma CallsServe(s: World, calls: seq<Call>, u: World, c: Call) returns (t: World)
    requires Serves(s, calls, u) && Possible(u, c)
    ensures Serves(s, calls + [c], t) && ServesOne(u, c, t)
  {
    t := CallServes(u, c);
    PathExtends(ServeRelation(), s, calls, u, c, t);
  }

  lemma StartReachable(config: Config, now: Time)
    ensures Reachable(Start(config, now))
  {
    assert Valid(Start(config, now), []) && Run(Start(config, now), []) == Start(config, now);
  }

  /**
   After any sequence of calls on empty tables, with whatever the provider answered: finished
   orders name the provider's status, inbox and outbox match, and completed operations and orders
   are paired.
   */
  lemma CallsAgree(config: Config, now: Time, calls: seq<Call>, t: World)
    requires Serves(Start(config, now), calls, t)
    ensures t.db == AfterAll(config, EmptyDb(), now, calls)
    ensures forall k :: k in t.db.orders && !Open(t.db.orders[k].status) ==>
              k in t.provider && EqualFold(t.db.orders[k].raw, t.provider[k].current)
    ensures (set i | i in t.db.inbound :: i.event) == t.db.outbox.Keys && |t.db.inbound| == |t.db.outbox|
    ensures forall k :: k in t.db.orders ==> exists key :: Creation.Completes(t.db, key, k)
  {
    StartReachable(config, now);
    CallsReach(Start(config, now), calls, t);
    forall k | k in t.db.orders && !Open(t.db.orders[k].status)
      ensures k in t.provider && EqualFold(t.db.orders[k].raw, t.provider[k].current)
    {
      Outcomes.TerminalAgreement(t, k);
    }
    Outcomes.InboxMatchesOutbox(t);
    Creation.OperationsAndOrdersPair(t);
  }
}
