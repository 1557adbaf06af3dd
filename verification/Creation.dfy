/**
 Idempotent creation. The completing and failing updates carry no status guard; that a key
 causes at most one provider order, and that its operation settles once, follows from the call
 order of Create together with the ownership its insert confers.
 */
module Creation {
  import opened Basics
  import opened Model
  import opened Statuses
  import opened Tables
  import opened Statements
  import opened Decisions
  import opened Protocol

  /** The processes that may still call the provider for their key, or settle its operation. */
  predicate Owner(p: Process) {
    p.CreateOwning? || p.CreateRefused? || p.CreateAccepted?
  }

  predicate IsProcessing(db: Db, key: string) {
    key in db.operations && db.operations[key].status == Processing
  }

  /** A key has at most one owner, and while it has one its operation is unsettled. */
  ghost predicate Owned(s: World) {
    && (forall p :: p in s.processes && Owner(p) ==>
          && IsProcessing(s.db, p.key) && s.processes[p] == 1
          && (p.CreateOwning? ==> p.key !in s.trace.calls))
    && (forall p, q :: p in s.processes && q in s.processes && Owner(p) && Owner(q) && p.key == q.key ==> p == q)
  }

  ghost predicate CalledOnce(s: World) {
    forall key :: key in s.trace.calls ==> s.trace.calls[key] == 1 && key in s.db.operations
  }

  ghost predicate Remembered(s: World) {
    forall key :: key in s.db.operations ==>
        s.db.operations[key].hash == s.config.fingerprint(s.db.operations[key].command)
  }

  /** A completed operation's response names the order it created. */
  ghost predicate Completes(db: Db, key: string, k: PaymentKey) {
    && key in db.operations && db.operations[key].status == Completed && db.operations[key].response.Some?
    && var p := db.operations[key].response.value;
       k == p.key && k in db.orders && db.orders[k].terms.transaction == p.terms.transaction
  }

  /** Completed operations and order rows, paired by the recorded origins. */
  ghost predicate Paired(db: Db, origin: map<PaymentKey, string>) {
    && (forall key :: key in db.operations && db.operations[key].status == Completed ==>
          && db.operations[key].response.Some?
          && var k := db.operations[key].response.value.key;
             k in origin && origin[k] == key)
    && (forall k :: k in db.orders ==> k in origin && Completes(db, origin[k], k))
    && (forall k :: k in origin ==> k in db.orders)
  }

  ghost predicate CreationOk(s: World) {
    Owned(s) && CalledOnce(s) && Remembered(s) && Paired(s.db, s.trace.origin)
  }

  // ---- Preservation ------------------------------------------------------------------

  /** Operations change only by their three statements. */
  lemma OperationsChange(db: Db, now: Time, q: Statement)
    ensures var t := Execute(db, now, q).operations;
      match q
      case Reserve(key, hash, cmd) =>
        t == if key in db.operations then db.operations
             else db.operations[key := Operation(hash, cmd, Processing, None, None)]
      case Complete(key, p) =>
        t == if CanInsertOrder(db, p) then FinishOperation(db, key, p).operations else db.operations
      case Fail(key, message) => t == FailCreate(db, key, message).operations
      case _ => t == db.operations
  {
  }

  predicate Creates(a: Action) {
    a.CreateInsert? || a.CreateCall? || a.CreateCallFails? || a.CreateComplete? || a.CreateFail?
  }

  lemma OtherStepsSettleNothing(s: World, a: Action)
    requires Enabled(s, a) && !Creates(a)
    ensures var q := StatementOf(s, a); !q.Reserve? && !q.Complete? && !q.Fail?
  {
  }

  lemma OtherSuccessorsOwnNothing(s: World, a: Action)
    requires Enabled(s, a) && !Creates(a)
    ensures Successor(s, a).Some? ==> !Owner(Successor(s, a).value)
  {
  }

  lemma ClaimsOwnNothing(s: World, keys: seq<PaymentKey>, locked: set<PaymentKey>, p: Process)
    requires Enabled(s, ClaimBatch(keys, locked)) && p in NewProcesses(s, ClaimBatch(keys, locked))
    ensures !Owner(p)
  {
    assert p in Spawned(Claim(s.db, s.now, keys), keys);
  }

  lemma OtherStepsCreateNothing(s: World, a: Action)
    requires Enabled(s, a) && !Creates(a)
    ensures Apply(s, a).db.operations == s.db.operations
    ensures Apply(s, a).trace.calls == s.trace.calls
    ensures forall p :: p in NewProcesses(s, a) ==> !Owner(p)
  {
    OtherStepsSettleNothing(s, a);
    OperationsChange(s.db, s.now, StatementOf(s, a));
    OtherSuccessorsOwnNothing(s, a);
    if a.ClaimBatch? {
      forall p | p in NewProcesses(s, a) ensures !Owner(p) {
        ClaimsOwnNothing(s, a.keys, a.locked, p);
      }
    }
  }

  lemma OtherStepsKeepOwners(s: World, a: Action)
    requires Enabled(s, a) && !Creates(a) && Owned(s) && CalledOnce(s)
    ensures Owned(Apply(s, a)) && CalledOnce(Apply(s, a))
  {
    OtherStepsCreateNothing(s, a);
    var t := Apply(s, a);
    forall p | p in t.processes && Owner(p) ensures p in s.processes && t.processes[p] <= s.processes[p] {
    }
  }

  /** Swapping the one owner of a key for another owner of it keeps ownership. */
  lemma InsertConfersOwnership(s: World, key: string, cmd: CreateCommand)
    requires Enabled(s, CreateInsert(key, cmd)) && Owned(s) && CalledOnce(s)
    ensures Owned(Apply(s, CreateInsert(key, cmd))) && CalledOnce(Apply(s, CreateInsert(key, cmd)))
  {
    var t := Apply(s, CreateInsert(key, cmd));
    var q := if key in s.db.operations then CreateLooking(key, cmd) else CreateOwning(key, cmd);
    assert t.processes == s.processes + multiset{q};
    assert t.trace.calls == s.trace.calls;
    InsertKeepsOwned(s, t, q, key);
  }

  lemma InsertKeepsOwned(s: World, t: World, q: Process, key: string)
    requires Owned(s) && CalledOnce(s) && t.processes == s.processes + multiset{q} && t.trace.calls == s.trace.calls
    requires forall k :: k in s.db.operations ==> k in t.db.operations && t.db.operations[k] == s.db.operations[k]
    requires Owner(q) ==> q.key == key && key !in s.db.operations && IsProcessing(t.db, key)
    ensures Owned(t) && CalledOnce(t)
  {
    if Owner(q) {
      assert q !in s.processes;
    }
  }

  /** An owner that moves on, or ends with its operation settled, leaves the other owners theirs. */
  lemma OwnerMovesOn(s: World, t: World, p: Process, q: Option<Process>)
    requires Owned(s) && p in s.processes && Owner(p)
    requires t.processes == s.processes - multiset{p} + Bag(q)
    requires q.Some? ==> Owner(q.value) && !q.value.CreateOwning? && q.value.key == p.key && IsProcessing(t.db, p.key)
    requires forall k :: k in s.db.operations && k != p.key ==>
        k in t.db.operations && t.db.operations[k] == s.db.operations[k]
    requires forall k :: k in t.trace.calls ==> k in s.trace.calls || k == p.key
    ensures Owned(t)
  {
    var rest := s.processes - multiset{p};
    assert p !in rest;
    assert forall x :: x in rest && Owner(x) ==> x.key != p.key && rest[x] == s.processes[x];
    if q.Some? {
      assert q.value !in rest;
    }
  }

  lemma CallKeepsOwnership(s: World, a: Action)
    requires Enabled(s, a) && (a.CreateCall? || a.CreateCallFails?) && Owned(s) && CalledOnce(s)
    ensures Owned(Apply(s, a)) && CalledOnce(Apply(s, a))
  {
    OwnerMovesOn(s, Apply(s, a), a.process, Successor(s, a));
  }

  lemma SettlingEndsOwnership(s: World, a: Action)
    requires Enabled(s, a) && (a.CreateComplete? || a.CreateFail?) && Owned(s) && CalledOnce(s)
    ensures Owned(Apply(s, a)) && CalledOnce(Apply(s, a))
  {
    OwnerMovesOn(s, Apply(s, a), a.process, None);
  }

  lemma StepKeepsOwners(s: World, a: Action)
    requires Enabled(s, a) && Owned(s) && CalledOnce(s)
    ensures Owned(Apply(s, a)) && CalledOnce(Apply(s, a))
  {
    if !Creates(a) {
      OtherStepsKeepOwners(s, a);
    } else if a.CreateInsert? {
      InsertConfersOwnership(s, a.idempotency, a.cmd);
    } else if a.CreateCall? || a.CreateCallFails? {
      CallKeepsOwnership(s, a);
    } else {
      SettlingEndsOwnership(s, a);
    }
  }

  /** Settling statements come only from an owner, so they find the operation unsettled. */
  ghost predicate Unsettled(db: Db, q: Statement) {
    (q.Complete? || q.Fail?) ==> IsProcessing(db, q.idempotency)
  }

  lemma OwnersFindUnsettled(s: World, a: Action)
    requires Enabled(s, a) && Owned(s)
    ensures Unsettled(s.db, StatementOf(s, a))
  {
  }

  lemma OtherStatementsKeepPairs(db: Db, now: Time, q: Statement, origin: map<PaymentKey, string>)
    requires Paired(db, origin) && Unsettled(db, q) && !(q.Complete? && CanInsertOrder(db, q.payment))
    ensures Paired(Execute(db, now, q), origin)
  {
    var t := Execute(db, now, q);
    OperationsChange(db, now, q);
    forall k | k in t.orders ensures k in origin && Completes(t, origin[k], k) {
      RowsChange(db, now, q);
      assert Completes(db, origin[k], k);
      RowChanges(db, now, q, k);
    }
    forall k | k in origin ensures k in t.orders {
      RowChanges(db, now, q, k);
    }
  }

  lemma CompletionKeepsPairs(db: Db, now: Time, key: string, p: Payment, origin: map<PaymentKey, string>)
    requires Paired(db, origin) && IsProcessing(db, key) && CanInsertOrder(db, p)
    ensures Paired(CompleteCreate(db, now, key, p), origin[p.key := key])
  {
    var t, o := CompleteCreate(db, now, key, p), origin[p.key := key];
    forall k | k in t.orders ensures k in o && Completes(t, o[k], k) {
      if k in db.orders {
        assert Completes(db, origin[k], k);
      }
    }
  }

  lemma StatementKeepsPairs(db: Db, now: Time, q: Statement, origin: map<PaymentKey, string>)
    requires Paired(db, origin) && Unsettled(db, q)
    ensures Paired(Execute(db, now, q),
                   if q.Complete? && CanInsertOrder(db, q.payment) then origin[q.payment.key := q.idempotency]
                       else origin)
  {
    if q.Complete? && CanInsertOrder(db, q.payment) {
      CompletionKeepsPairs(db, now, q.idempotency, q.payment, origin);
    } else {
      OtherStatementsKeepPairs(db, now, q, origin);
    }
  }

  lemma StepKeepsCreation(s: World, a: Action)
    requires CreationOk(s) && Enabled(s, a)
    ensures CreationOk(Apply(s, a))
  {
    var q := StatementOf(s, a);
    StepKeepsOwners(s, a);
    OwnersFindUnsettled(s, a);
    StatementKeepsPairs(s.db, s.now, q, s.trace.origin);
    OriginFollows(s, a);
    StepKeepsHashes(s, a);
  }

  lemma OriginFollows(s: World, a: Action)
    requires Enabled(s, a)
    ensures var q := StatementOf(s, a);
      Apply(s, a).trace.origin ==
        if q.Complete? && CanInsertOrder(s.db, q.payment) then s.trace.origin[q.payment.key := q.idempotency]
            else s.trace.origin
  {
  }

  lemma StepKeepsHashes(s: World, a: Action)
    requires Remembered(s) && Enabled(s, a)
    ensures Remembered(Apply(s, a))
  {
    var db, q := s.db, StatementOf(s, a);
    HashesKept(s.config, db, s.now, q);
  }

  lemma HashesKept(config: Config, db: Db, now: Time, q: Statement)
    requires forall key :: key in db.operations ==>
        db.operations[key].hash == config.fingerprint(db.operations[key].command)
    requires q.Reserve? ==> q.hash == config.fingerprint(q.cmd)
    ensures var t := Execute(db, now, q);
      forall key :: key in t.operations ==> t.operations[key].hash == config.fingerprint(t.operations[key].command)
  {
    OperationsChange(db, now, q);
  }

  lemma {:induction false} RunKeepsCreation(s: World, run: seq<Action>)
    requires CreationOk(s) && Valid(s, run)
    ensures CreationOk(Run(s, run))
    decreases |run|
  {
    if run != [] {
      StepKeepsCreation(s, run[0]);
      RunKeepsCreation(Apply(s, run[0]), run[1..]);
    }
  }

  lemma ReachableCreation(s: World)
    requires Reachable(s)
    ensures CreationOk(s)
  {
    var config, now, run :| Valid(Start(config, now), run) && Run(Start(config, now), run) == s;
    RunKeepsCreation(Start(config, now), run);
  }

  /** A statement by an owner leaves an operation alone or settles it for the first time. */
  lemma SettlesOnce(db: Db, now: Time, q: Statement, key: string)
    requires Unsettled(db, q) && key in db.operations
    ensures key in Execute(db, now, q).operations
    ensures var before, after := db.operations[key], Execute(db, now, q).operations[key];
      || after == before
      || (before.status == Processing && after.status in {Completed, Aborted}
          && after.hash == before.hash && after.command == before.command)
  {
    OperationsChange(db, now, q);
  }

  // ---- Results -----------------------------------------------------------------------

  /**
   Over any interleaving of creations, crashes and failed completions: a key causes at most one
   provider call, and every step leaves its operation alone or settles it for the first time.
   */
  lemma AtMostOneProviderCall(s: World, a: Action, key: string)
    requires Reachable(s) && Enabled(s, a)
    ensures key in s.trace.calls ==> s.trace.calls[key] == 1
    ensures key in s.db.operations ==>
              && key in Apply(s, a).db.operations
              && var before, after := s.db.operations[key], Apply(s, a).db.operations[key];
                 || after == before
                 || (before.status == Processing && after.status in {Completed, Aborted}
                     && after.hash == before.hash && after.command == before.command)
  {
    ReachableCreation(s);
    OwnersFindUnsettled(s, a);
    if key in s.db.operations {
      SettlesOnce(s.db, s.now, StatementOf(s, a), key);
    }
  }

  /** The provider calls a run makes for a key, answered or not. */
  function ProviderCalls(run: seq<Action>, key: string): nat {
    if run == [] then 0
    else
      var called := (run[0].CreateCall? || run[0].CreateCallFails?) && run[0].process.CreateOwning?;
      (if called && run[0].process.key == key then 1 else 0) + ProviderCalls(run[1..], key)
  }

  lemma StepCounted(s: World, a: Action, key: string)
    requires Enabled(s, a)
    ensures Count(Apply(s, a).trace.calls, key) == Count(s.trace.calls, key) + ProviderCalls([a], key)
  {
    assert ProviderCalls([a][1..], key) == 0;
  }

  lemma {:induction false} CallsCounted(s: World, run: seq<Action>, key: string)
    requires Valid(s, run)
    ensures Count(Run(s, run).trace.calls, key) == Count(s.trace.calls, key) + ProviderCalls(run, key)
    decreases |run|
  {
    if run != [] {
      StepCounted(s, run[0], key);
      CallsCounted(Apply(s, run[0]), run[1..], key);
      assert ProviderCalls([run[0]][1..], key) == 0;
    }
  }

  /** In every run, however many requests reuse a key, the provider is called at most once for it. */
  lemma KeysCallOnce(config: Config, now: Time, run: seq<Action>, key: string)
    requires Valid(Start(config, now), run)
    ensures ProviderCalls(run, key) <= 1
    ensures ProviderCalls(run, key) == 1 ==> key in Run(Start(config, now), run).db.operations
  {
    CallsCounted(Start(config, now), run, key);
    ReachableCreation(Run(Start(config, now), run));
  }

  /**
   Completed operations and order rows are in bijection: each completed operation names exactly
   one order, and each order is named by exactly one completed operation.
   */
  lemma OperationsAndOrdersPair(s: World)
    requires Reachable(s)
    ensures forall key :: key in s.db.operations && s.db.operations[key].status == Completed ==>
              exists k :: Completes(s.db, key, k)
    ensures forall key, k, k' :: Completes(s.db, key, k) && Completes(s.db, key, k') ==> k == k'
    ensures forall k :: k in s.db.orders ==> exists key :: Completes(s.db, key, k)
    ensures forall k, key, key' :: Completes(s.db, key, k) && Completes(s.db, key', k) ==> key == key'
  {
    ReachableCreation(s);
    forall key | key in s.db.operations && s.db.operations[key].status == Completed
      ensures exists k :: Completes(s.db, key, k)
    {
      var k := s.db.operations[key].response.value.key;
      assert Completes(s.db, s.trace.origin[k], k);
    }
    forall k | k in s.db.orders ensures exists key :: Completes(s.db, key, k) {
      assert Completes(s.db, s.trace.origin[k], k);
    }
  }

  lemma {:induction false} CompletedForever(s: World, run: seq<Action>, key: string)
    requires CreationOk(s) && Valid(s, run)
    requires key in s.db.operations && s.db.operations[key].status == Completed
    ensures key in Run(s, run).db.operations && Run(s, run).db.operations[key] == s.db.operations[key]
    decreases |run|
  {
    if run != [] {
      OwnersFindUnsettled(s, run[0]);
      SettlesOnce(s.db, s.now, StatementOf(s, run[0]), key);
      StepKeepsCreation(s, run[0]);
      CompletedForever(Apply(s, run[0]), run[1..], key);
    }
  }

  /**
   Once a creation completed, every later request with its key and command replays the first
   payment on every serialized field, however the order has moved since; a request whose
   command has another fingerprint conflicts. Neither inserts anything.
   */
  lemma ReplaysFirstPayment(s: World, p: Process, run: seq<Action>, cmd: CreateCommand)
    requires Reachable(s) && Enabled(s, CreateComplete(p)) && CanInsertOrder(s.db, p.payment)
    requires Valid(Apply(s, CreateComplete(p)), run)
    ensures var t := Run(Apply(s, CreateComplete(p)), run);
      && p.key in s.db.operations
      && (var same := s.config.fingerprint(cmd) == s.config.fingerprint(s.db.operations[p.key].command);
          ReserveCreate(t.db, p.key, s.config.fingerprint(cmd)) ==
            if same then Replay(Serialized(p.payment)) else Refused(Conflict))
      && InsertOperation(t.db, p.key, s.config.fingerprint(cmd), cmd) == t.db
  {
    ReachableCreation(s);
    OwnersFindUnsettled(s, CreateComplete(p));
    OperationsChange(s.db, s.now, StatementOf(s, CreateComplete(p)));
    StepKeepsCreation(s, CreateComplete(p));
    CompletedForever(Apply(s, CreateComplete(p)), run, p.key);
  }
}
