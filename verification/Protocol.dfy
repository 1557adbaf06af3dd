/**
 The payment protocol as one transition system. Every SQL statement or transaction, every
 provider call and every local decision is one step; a process holds the snapshot it read
 earlier, so any number of other steps may come between its reads, its provider calls and its
 writes. The provider keeps, per order, the raw statuses the order has had; a query or webhook
 may report any of them, however old.
 */
module Protocol {
  import opened Basics
  import opened Model
  import opened Statuses
  import opened Text
  import opened Tables
  import opened Statements
  import opened Decisions
  import opened EventIds

  /** The provider's own record of an order: its status now and every status so far. */
  datatype Ledger = Ledger(current: string, past: set<string>)

  /** A running call: the point it has reached and what it carries from its last step. */
  datatype Process =
    | CreateLooking(key: string, cmd: CreateCommand)
    | CreateOwning(key: string, cmd: CreateCommand)
    | CreateRefused(key: string, message: string)
    | CreateAccepted(key: string, payment: Payment)
    | GetFound(payment: Payment)
    | GetAnswered(payment: Payment, raw: string)
    | CancelFound(payment: Payment)
    | CancelClosed(payment: Payment)
    | PollClaimed(payment: Payment)
    | PollAnswered(payment: Payment, answer: Answer)
    | PollObserved(payment: Payment)
    | PollEmitting(event: Event, evidence: Evidence)
    | PollRetrying(target: PaymentKey, message: string)
    | HookFound(payment: Payment, hook: Hook)
    | HookRecording(event: Event, evidence: Evidence)

  datatype Writer = ByCreate | ByGet | ByCancel | ByObservation | ByEvent(id: string)

  /** History no program variable holds: provider calls per key, row origins, last status writers, last claims. */
  datatype Trace = Trace(
    calls: map<string, nat>,
    origin: map<PaymentKey, string>,
    writers: map<PaymentKey, Writer>,
    claims: map<PaymentKey, Time>)

  datatype World = World(
    config: Config,
    now: Time,
    db: Db,
    provider: map<PaymentKey, Ledger>,
    processes: multiset<Process>,
    trace: Trace)

  datatype Action =
    | Tick(elapsed: nat)
    | ProviderMoves(key: PaymentKey, raw: string)
    | Crash(process: Process)
    | Restart
    | CreateInsert(idempotency: string, cmd: CreateCommand)
    | CreateLookup(process: Process)
    | CreateCall(process: Process, id: string, expireTime: Option<Time>, completion: string, at: Time)
    | CreateCallFails(process: Process, message: string, reached: Option<string>)
    | CreateComplete(process: Process)
    | CreateFail(process: Process)
    | GetFind(key: PaymentKey)
    | GetQuery(process: Process, raw: string)
    | GetWrite(process: Process)
    | CancelFind(key: PaymentKey)
    | CancelClose(process: Process)
    | CancelWrite(process: Process)
    | ClaimBatch(keys: seq<PaymentKey>, locked: set<PaymentKey>)
    | PollQuery(process: Process, answer: Answer)
    | PollQueryFails(process: Process, message: string)
    | PollDecide(process: Process, at: Time, stamp: Time)
    | PollObserve(process: Process)
    | PollRecord(process: Process)
    | PollRecordFails(process: Process, applied: bool, message: string)
    | PollRetry(process: Process)
    | HookFind(key: PaymentKey, hook: Hook)
    | HookDecide(process: Process, at: Time, stamp: Time)
    | HookRecord(process: Process)
    | PublishMark(id: string, sent: bool, message: string)

  // ---- Provider -------------------------------------------------------------------

  function Opened(provider: map<PaymentKey, Ledger>, k: PaymentKey): map<PaymentKey, Ledger> {
    if k in provider then provider else provider[k := Ledger("INITIAL", {"INITIAL"})]
  }

  function Moved(l: Ledger, raw: string): Ledger {
    Ledger(raw, l.past + {raw})
  }

  /** Final statuses are absorbing, up to letter case. */
  predicate MayMove(l: Ledger, raw: string) {
    Final(l.current) ==> EqualFold(l.current, raw)
  }

  /** A status reported for an order held at some time. */
  predicate Held(provider: map<PaymentKey, Ledger>, k: PaymentKey, raw: string) {
    k in provider && raw in provider[k].past
  }

  // ---- Steps ----------------------------------------------------------------------

  predicate Runs(s: World, p: Process) {
    p in s.processes
  }

  ghost predicate Enabled(s: World, a: Action) {
    match a
    case Tick(_) => true
    case ProviderMoves(k, raw) => k in s.provider && MayMove(s.provider[k], raw)
    case Crash(p) => Runs(s, p)
    case Restart => true
    case CreateInsert(key, cmd) => ValidCreate(s.config, key, cmd)
    case CreateLookup(p) => Runs(s, p) && p.CreateLooking?
    case CreateCall(p, id, _, _, at) => Runs(s, p) && p.CreateOwning? && at <= s.now
    case CreateCallFails(p, _, _) => Runs(s, p) && p.CreateOwning?
    case CreateComplete(p) => Runs(s, p) && p.CreateAccepted?
    case CreateFail(p) => Runs(s, p) && p.CreateRefused?
    case GetFind(k) => k in s.db.orders
    case GetQuery(p, raw) => Runs(s, p) && p.GetFound? && Held(s.provider, p.payment.key, raw)
    case GetWrite(p) => Runs(s, p) && p.GetAnswered?
    case CancelFind(k) => k in s.db.orders
    case CancelClose(p) =>
      Runs(s, p) && p.CancelFound? && p.payment.key in s.provider && MayMove(s.provider[p.payment.key], "PAY_CLOSED")
    case CancelWrite(p) => Runs(s, p) && p.CancelClosed?
    case ClaimBatch(keys, locked) => IsClaim(s.db.orders, s.now, BATCH, locked, keys)
    case PollQuery(p, answer) =>
      && Runs(s, p) && p.PollClaimed?
      && (IdMatches(p.payment, answer.id) ==> Held(s.provider, p.payment.key, answer.raw))
    case PollQueryFails(p, _) => Runs(s, p) && p.PollClaimed?
    case PollDecide(p, at, stamp) => Runs(s, p) && p.PollAnswered? && at <= stamp <= s.now
    case PollObserve(p) => Runs(s, p) && p.PollObserved?
    case PollRecord(p) => Runs(s, p) && p.PollEmitting? &&
        !(InboundOf(p.event) !in s.db.inbound && p.event.id in s.db.outbox)
    case PollRecordFails(p, _, _) => Runs(s, p) && p.PollEmitting?
    case PollRetry(p) => Runs(s, p) && p.PollRetrying?
    case HookFind(k, hook) =>
      && k in s.db.orders && s.db.orders[k].terms.reference == hook.reference
      && (IdMatches(Snapshot(k, s.db.orders[k]), hook.id) ==> Held(s.provider, k, hook.raw))
    case HookDecide(p, at, stamp) => Runs(s, p) && p.HookFound? && at <= stamp <= s.now
    case HookRecord(p) => Runs(s, p) && p.HookRecording?
    case PublishMark(_, _, _) => true
  }

  /** The store statement a step runs. */
  function StatementOf(s: World, a: Action): Statement
    requires Enabled(s, a)
  {
    match a
    case Restart => FillSchedule
    case CreateInsert(key, cmd) => Reserve(key, s.config.fingerprint(cmd), cmd)
    case CreateComplete(p) => Complete(p.key, p.payment)
    case CreateFail(p) => Fail(p.key, p.message)
    case GetWrite(p) => Write(p.payment.key, NormalizeStatus(p.raw), p.raw, s.now)
    case CancelWrite(p) => Write(p.payment.key, Cancelled, "PAY_CLOSED", s.now)
    case ClaimBatch(keys, _) => TakeBatch(keys)
    case PollObserve(p) => Write(p.payment.key, p.payment.status, p.payment.raw, p.payment.observedAt)
    case PollRecord(p) => RecordProviderEvent(p.event, p.evidence)
    case PollRecordFails(p, applied, _) => if applied then RecordProviderEvent(p.event, p.evidence) else Nothing
    case PollRetry(p) => PostponeRetry(p.target, p.message)
    case HookRecord(p) => RecordProviderEvent(p.event, p.evidence)
    case PublishMark(id, sent, message) => if sent then Publish(id) else Postpone(id, message)
    case _ => Nothing
  }

  /** The process a step moves, if it is one's step. */
  function Subject(a: Action): Option<Process> {
    match a
    case Crash(p) => Some(p)
    case CreateLookup(p) => Some(p)
    case CreateCall(p, _, _, _, _) => Some(p)
    case CreateCallFails(p, _, _) => Some(p)
    case CreateComplete(p) => Some(p)
    case CreateFail(p) => Some(p)
    case GetQuery(p, _) => Some(p)
    case GetWrite(p) => Some(p)
    case CancelClose(p) => Some(p)
    case CancelWrite(p) => Some(p)
    case PollQuery(p, _) => Some(p)
    case PollQueryFails(p, _) => Some(p)
    case PollDecide(p, _, _) => Some(p)
    case PollObserve(p) => Some(p)
    case PollRecord(p) => Some(p)
    case PollRecordFails(p, _, _) => Some(p)
    case PollRetry(p) => Some(p)
    case HookDecide(p, _, _) => Some(p)
    case HookRecord(p) => Some(p)
    case _ => None
  }

  /** What a step leaves running in its subject's place, claims aside. */
  function Successor(s: World, a: Action): Option<Process>
    requires Enabled(s, a)
  {
    match a
    case CreateInsert(key, cmd) =>
        Some(if key in s.db.operations then CreateLooking(key, cmd) else CreateOwning(key, cmd))
    case CreateCall(p, id, expireTime, completion, at) =>
      Some(CreateAccepted(p.key, CreatedPayment(p.cmd, id, expireTime, completion, at)))
    case CreateCallFails(p, message, _) => Some(CreateRefused(p.key, message))
    case GetFind(k) => Some(GetFound(Snapshot(k, s.db.orders[k])))
    case GetQuery(p, raw) => Some(GetAnswered(p.payment, raw))
    case CancelFind(k) => Some(CancelFound(Snapshot(k, s.db.orders[k])))
    case CancelClose(p) => Some(CancelClosed(p.payment))
    case PollQuery(p, answer) => Some(PollAnswered(p.payment, answer))
    case PollQueryFails(p, message) => Some(PollRetrying(p.payment.key, message))
    case PollDecide(p, at, stamp) =>
      (match DecidePoll(s.config.sha, p.payment, p.answer, at, stamp)
       case Retry(message) => Some(PollRetrying(p.payment.key, message))
       case Observe(payment) => Some(PollObserved(payment))
       case Emit(event) => Some(PollEmitting(event, Evidence(p.answer.amount))))
    case PollRecordFails(p, _, message) => Some(PollRetrying(p.event.key, message))
    case HookFind(k, hook) => Some(HookFound(Snapshot(k, s.db.orders[k]), hook))
    case HookDecide(p, at, stamp) =>
      (match DecideHook(p.payment, p.hook, at, stamp)
       case Record(event) => Some(HookRecording(event, Evidence(p.hook.amount)))
       case Reject(_) => None
       case Ignore => None)
    case _ => None
  }

  function Bag(p: Option<Process>): multiset<Process> {
    if p.Some? then multiset{p.value} else multiset{}
  }

  /** The claimed rows, as returned by the claiming statement. */
  function Spawned(db: Db, keys: seq<PaymentKey>): seq<Process>
    requires forall k :: k in keys ==> k in db.orders
  {
    seq(|keys|, i requires 0 <= i < |keys| =>
      assert keys[i] in keys;
      PollClaimed(Snapshot(keys[i], db.orders[keys[i]])))
  }

  function NewProcesses(s: World, a: Action): multiset<Process>
    requires Enabled(s, a)
  {
    if a.ClaimBatch? then multiset(Spawned(Claim(s.db, s.now, a.keys), a.keys)) else Bag(Successor(s, a))
  }

  function ProviderAfter(s: World, a: Action): map<PaymentKey, Ledger>
    requires Enabled(s, a)
  {
    match a
    case ProviderMoves(k, raw) => s.provider[k := Moved(s.provider[k], raw)]
    case CancelClose(p) => s.provider[p.payment.key := Moved(s.provider[p.payment.key], "PAY_CLOSED")]
    case CreateCall(p, id, _, _, _) => Opened(s.provider, PaymentKey(p.cmd.connection, id))
    case CreateCallFails(p, _, reached) =>
      if reached.Some? then Opened(s.provider, PaymentKey(p.cmd.connection, reached.value)) else s.provider
    case _ => s.provider
  }

  /** The order row whose status a step writes, and by which path. */
  function WriteBy(s: World, a: Action): Option<(PaymentKey, Writer)>
    requires Enabled(s, a)
  {
    match a
    case CreateComplete(p) => if CanInsertOrder(s.db, p.payment) then Some((p.payment.key, ByCreate)) else None
    case GetWrite(p) => Some((p.payment.key, ByGet))
    case CancelWrite(p) => Some((p.payment.key, ByCancel))
    case PollObserve(p) => Some((p.payment.key, ByObservation))
    case _ =>
      var q := StatementOf(s, a);
      if Emits(s.db, q) then Some((q.event.key, ByEvent(q.event.id))) else None
  }

  function TraceAfter(s: World, a: Action): Trace
    requires Enabled(s, a)
  {
    var w := WriteBy(s, a);
    Trace(
      if a.CreateCall? || a.CreateCallFails? then Bump(s.trace.calls, a.process.key) else s.trace.calls,
      if a.CreateComplete? && CanInsertOrder(s.db, a.process.payment)
      then s.trace.origin[a.process.payment.key := a.process.key] else s.trace.origin,
      if w.Some? then s.trace.writers[w.value.0 := w.value.1] else s.trace.writers,
      if a.ClaimBatch? then s.trace.claims + map k | k in a.keys :: s.now else s.trace.claims)
  }

  function ClockAfter(s: World, a: Action): Time {
    if a.Tick? then s.now + a.elapsed else s.now
  }

  /** One step: at most one statement, a provider move, and the subject swapped for its successor. */
  function Apply(s: World, a: Action): World
    requires Enabled(s, a)
  {
    World(s.config, ClockAfter(s, a), Execute(s.db, s.now, StatementOf(s, a)), ProviderAfter(s, a),
          s.processes - Bag(Subject(a)) + NewProcesses(s, a), TraceAfter(s, a))
  }

  // ---- Runs -----------------------------------------------------------------------

  function Start(config: Config, now: Time): World {
    World(config, now, EmptyDb(), map[], multiset{}, Trace(map[], map[], map[], map[]))
  }

  ghost predicate Valid(s: World, run: seq<Action>)
    decreases |run|
  {
    run == [] || (Enabled(s, run[0]) && Valid(Apply(s, run[0]), run[1..]))
  }

  ghost function Run(s: World, run: seq<Action>): World
    requires Valid(s, run)
    decreases |run|
  {
    if run == [] then s else Run(Apply(s, run[0]), run[1..])
  }

  /** The states of runs that begin with empty tables and no process. */
  ghost predicate Reachable(s: World) {
    exists config, now, run :: Valid(Start(config, now), run) && Run(Start(config, now), run) == s
  }
}
