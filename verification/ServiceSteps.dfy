/**
 The calls of Services are schedules of the protocol: running a call's steps with nothing in
 between leaves exactly the tables the call leaves, and no process behind.
 */
module ServiceSteps {
  import opened Basics
  import opened Model
  import opened Statuses
  import opened Tables
  import opened Statements
  import opened Decisions
  import opened Protocol
  import opened Reachability
  import Services
  import Refunds

  /** A run that leaves these tables, no process behind, and the clock alone. */
  ghost predicate Leaves(s: World, run: seq<Action>, db: Db) {
    Valid(s, run) && Run(s, run).db == db && Run(s, run).processes == s.processes && Run(s, run).now == s.now
  }

  lemma Then(s: World, a: Action, rest: seq<Action>, processes: multiset<Process>, db: Db)
    requires Enabled(s, a) && Apply(s, a).now == s.now
    requires Valid(Apply(s, a), rest) && Run(Apply(s, a), rest).db == db
    requires Run(Apply(s, a), rest).processes == processes && Run(Apply(s, a), rest).now == s.now
    ensures Valid(s, [a] + rest) && Run(s, [a] + rest).db == db
    ensures Run(s, [a] + rest).processes == processes && Run(s, [a] + rest).now == s.now
  {
    Prepend(s, a, rest);
  }

  /** Steps that end with their process gone. */
  ghost predicate Finishes(s: World, p: Process, run: seq<Action>, db: Db) {
    p in s.processes && Valid(s, run) && Run(s, run).db == db
    && Run(s, run).processes == s.processes - multiset{p} && Run(s, run).now == s.now
  }

  lemma LastStep(s: World, p: Process, a: Action)
    requires Enabled(s, a) && Runs(s, p) && Subject(a) == Some(p) && Successor(s, a) == None && !a.Tick? &&
        !a.ClaimBatch?
    ensures Finishes(s, p, [a], Execute(s.db, s.now, StatementOf(s, a)))
  {
    Then(s, a, [], s.processes - multiset{p}, Execute(s.db, s.now, StatementOf(s, a)));
    assert [a] + [] == [a];
  }

  lemma NextStep(s: World, p: Process, a: Action, q: Process, rest: seq<Action>, db: Db)
    requires Enabled(s, a) && Runs(s, p) && Subject(a) == Some(p) && Successor(s, a) == Some(q) && !a.Tick? &&
        !a.ClaimBatch?
    requires Finishes(Apply(s, a), q, rest, db)
    ensures Finishes(s, p, [a] + rest, db)
  {
    Then(s, a, rest, s.processes - multiset{p}, db);
  }

  lemma FirstStep(s: World, a: Action, q: Process, rest: seq<Action>, db: Db)
    requires Enabled(s, a) && Subject(a) == None && Successor(s, a) == Some(q) && !a.Tick? && !a.ClaimBatch?
    requires Finishes(Apply(s, a), q, rest, db)
    ensures Leaves(s, [a] + rest, db)
  {
    Then(s, a, rest, s.processes, db);
  }

  lemma Joined(a: Action, b: Action, rest: seq<Action>)
    ensures [a] + ([b] + rest) == [a, b] + rest
  {
  }

  lemma SpawnedRuns(s: World, a: Action, q: Process)
    requires Enabled(s, a) && Successor(s, a) == Some(q) && !a.ClaimBatch?
    ensures Runs(Apply(s, a), q)
  {
  }

  // ---- Create --------------------------------------------------------------------------------

  lemma CreateIsSchedule(s: World, key: string, cmd: CreateCommand, reply: Services.Reply<Services.NewOrderReply>,
                         at: Time)
    returns (run: seq<Action>)
    requires at <= s.now
    ensures Leaves(s, run, Services.AfterCreate(s.config, s.db, s.now, key, cmd, reply, at))
    ensures !ValidCreate(s.config, key, cmd) ==> run == []
    ensures ValidCreate(s.config, key, cmd) && key in s.db.operations ==>
              run == [CreateInsert(key, cmd), CreateLookup(CreateLooking(key, cmd))]
    ensures ValidCreate(s.config, key, cmd) && key !in s.db.operations ==>
              run == [CreateInsert(key, cmd)] + OwnerSteps(key, cmd, reply, at)
  {
    if !ValidCreate(s.config, key, cmd) {
      run := [];
    } else {
      var insert := CreateInsert(key, cmd);
      var reserved := Apply(s, insert);
      if key in s.db.operations {
        run := LookupIsSchedule(s, key, cmd);
      } else {
        var p := CreateOwning(key, cmd);
        SpawnedRuns(s, insert, p);
        var rest := OwnerFinishes(reserved, key, cmd, reply, at);
        FirstStep(s, insert, p, rest, Services.AfterCreate(s.config, s.db, s.now, key, cmd, reply, at));
        run := [insert] + rest;
      }
    }
  }

  /** The provider call and the statement that stores its outcome. */
  function OwnerSteps(key: string, cmd: CreateCommand, reply: Services.Reply<Services.NewOrderReply>, at: Time):
    seq<Action>
  {
    match reply
    case Failure(message) =>
      [CreateCallFails(CreateOwning(key, cmd), message, None), CreateFail(CreateRefused(key, message))]
    case Answer(o) =>
      [CreateCall(CreateOwning(key, cmd), o.id, o.expireTime, o.completion, at),
       CreateComplete(CreateAccepted(key, CreatedPayment(cmd, o.id, o.expireTime, o.completion, at)))]
  }

  lemma LookupIsSchedule(s: World, key: string, cmd: CreateCommand) returns (run: seq<Action>)
    requires ValidCreate(s.config, key, cmd) && key in s.db.operations
    ensures Leaves(s, run, s.db) && run == [CreateInsert(key, cmd), CreateLookup(CreateLooking(key, cmd))]
  {
    var insert, p := CreateInsert(key, cmd), CreateLooking(key, cmd);
    SpawnedRuns(s, insert, p);
    LastStep(Apply(s, insert), p, CreateLookup(p));
    FirstStep(s, insert, p, [CreateLookup(p)], s.db);
    run := [insert] + [CreateLookup(p)];
  }

  lemma OwnerFinishes(s: World, key: string, cmd: CreateCommand, reply: Services.Reply<Services.NewOrderReply>,
                      at: Time)
    returns (run: seq<Action>)
    requires at <= s.now && Runs(s, CreateOwning(key, cmd))
    ensures Finishes(s, CreateOwning(key, cmd), run,
                     match reply
                     case Failure(message) => FailCreate(s.db, key, message)
                     case Answer(o) => CompleteCreate(s.db, s.now, key,
                         CreatedPayment(cmd, o.id, o.expireTime, o.completion, at)))
    ensures run == OwnerSteps(key, cmd, reply, at)
  {
    match reply {
      case Failure(message) => run := RefusalFinishes(s, key, cmd, message);
      case Answer(o) => run := AnswerFinishes(s, key, cmd, o, at);
    }
  }

  lemma FailureFinishes(s: World, key: string, message: string)
    requires Runs(s, CreateRefused(key, message))
    ensures var q := CreateRefused(key, message);
      Finishes(s, q, [CreateFail(q)], FailCreate(s.db, key, message))
  {
    var q := CreateRefused(key, message);
    LastStep(s, q, CreateFail(q));
  }

  lemma RefusalFinishes(s: World, key: string, cmd: CreateCommand, message: string) returns (run: seq<Action>)
    requires Runs(s, CreateOwning(key, cmd))
    ensures Finishes(s, CreateOwning(key, cmd), run, FailCreate(s.db, key, message))
    ensures run == [CreateCallFails(CreateOwning(key, cmd), message, None), CreateFail(CreateRefused(key, message))]
  {
    var call, q := CreateCallFails(CreateOwning(key, cmd), message, None), CreateRefused(key, message);
    var t := CallChangesNoTable(s, call);
    SpawnedRuns(s, call, q);
    FailureFinishes(t, key, message);
    NextStep(s, CreateOwning(key, cmd), call, q, [CreateFail(q)], FailCreate(s.db, key, message));
    run := [call] + [CreateFail(q)];
  }

  lemma CompletionFinishes(s: World, key: string, payment: Payment)
    requires Runs(s, CreateAccepted(key, payment))
    ensures var q := CreateAccepted(key, payment);
      Finishes(s, q, [CreateComplete(q)], CompleteCreate(s.db, s.now, key, payment))
  {
    var q := CreateAccepted(key, payment);
    LastStep(s, q, CreateComplete(q));
  }

  lemma AnswerFinishes(s: World, key: string, cmd: CreateCommand, o: Services.NewOrderReply, at: Time)
    returns (run: seq<Action>)
    requires at <= s.now && Runs(s, CreateOwning(key, cmd))
    ensures Finishes(s, CreateOwning(key, cmd), run,
                     CompleteCreate(s.db, s.now, key, CreatedPayment(cmd, o.id, o.expireTime, o.completion, at)))
    ensures run == OwnerSteps(key, cmd, Services.Answer(o), at)
  {
    var payment := CreatedPayment(cmd, o.id, o.expireTime, o.completion, at);
    var call := CreateCall(CreateOwning(key, cmd), o.id, o.expireTime, o.completion, at);
    run := AcceptedFinishes(s, key, cmd, call, payment);
  }

  lemma AcceptedFinishes(s: World, key: string, cmd: CreateCommand, a: Action, payment: Payment)
    returns (run: seq<Action>)
    requires Accepts(s, key, cmd, a, payment)
    ensures Finishes(s, CreateOwning(key, cmd), run, CompleteCreate(s.db, s.now, key, payment))
    ensures run == [a, CreateComplete(CreateAccepted(key, payment))]
  {
    var t := CallAccepted(s, key, cmd, a, payment);
    CompletionFinishes(t, key, payment);
    CallBegins(s, key, cmd, a, payment, [CreateComplete(CreateAccepted(key, payment))],
               CompleteCreate(s.db, s.now, key, payment));
    run := [a] + [CreateComplete(CreateAccepted(key, payment))];
  }

  /** The call of an owning creation that the provider answers with this payment. */
  ghost predicate Accepts(s: World, key: string, cmd: CreateCommand, a: Action, payment: Payment) {
    && a.CreateCall? && a.process == CreateOwning(key, cmd) && Enabled(s, a)
    && payment == CreatedPayment(cmd, a.id, a.expireTime, a.completion, a.at)
  }

  lemma CallAccepted(s: World, key: string, cmd: CreateCommand, a: Action, payment: Payment) returns (t: World)
    requires Accepts(s, key, cmd, a, payment)
    ensures t == Apply(s, a) && t.db == s.db && t.now == s.now && Runs(t, CreateAccepted(key, payment))
  {
    t := CallChangesNoTable(s, a);
    SpawnedRuns(s, a, CreateAccepted(key, payment));
  }

  lemma CallBegins(s: World, key: string, cmd: CreateCommand, a: Action, payment: Payment, rest: seq<Action>, db: Db)
    requires Accepts(s, key, cmd, a, payment) && Finishes(Apply(s, a), CreateAccepted(key, payment), rest, db)
    ensures Finishes(s, CreateOwning(key, cmd), [a] + rest, db)
  {
    NextStep(s, CreateOwning(key, cmd), a, CreateAccepted(key, payment), rest, db);
  }

  lemma CallChangesNoTable(s: World, a: Action) returns (t: World)
    requires Enabled(s, a) && StatementOf(s, a).Nothing? && !a.Tick?
    ensures t == Apply(s, a) && t.db == s.db && t.now == s.now && t.config == s.config
  {
    t := Apply(s, a);
  }

  // ---- Get and Cancel --------------------------------------------------------------------------

  lemma GetWriteFinishes(s: World, payment: Payment, raw: string)
    requires Runs(s, GetAnswered(payment, raw))
    ensures var q := GetAnswered(payment, raw);
      Finishes(s, q, [GetWrite(q)], UpdateStatus(s.db, s.now, payment.key, NormalizeStatus(raw), raw))
  {
    var q := GetAnswered(payment, raw);
    LastStep(s, q, GetWrite(q));
  }

  lemma GetFinishes(s: World, payment: Payment, raw: string) returns (run: seq<Action>)
    requires Runs(s, GetFound(payment)) && Held(s.provider, payment.key, raw)
    ensures Finishes(s, GetFound(payment), run, UpdateStatus(s.db, s.now, payment.key, NormalizeStatus(raw), raw))
    ensures run == [GetQuery(GetFound(payment), raw), GetWrite(GetAnswered(payment, raw))]
  {
    var query, answered := GetQuery(GetFound(payment), raw), GetAnswered(payment, raw);
    var t := CallChangesNoTable(s, query);
    SpawnedRuns(s, query, answered);
    GetWriteFinishes(t, payment, raw);
    NextStep(s, GetFound(payment), query, answered, [GetWrite(answered)],
             UpdateStatus(s.db, s.now, payment.key, NormalizeStatus(raw), raw));
    run := [query] + [GetWrite(answered)];
  }

  /** The status the provider reports must have held at some time; then Get is a schedule. */
  lemma GetIsSchedule(s: World, k: PaymentKey, raw: string) returns (run: seq<Action>)
    requires k in s.db.orders && k.connection in s.config.connections && Held(s.provider, k, raw)
    ensures Leaves(s, run, Services.AfterGet(s.config, s.db, s.now, k, Services.Answer(raw)))
    ensures var payment := Snapshot(k, s.db.orders[k]);
      run == [GetFind(k), GetQuery(GetFound(payment), raw), GetWrite(GetAnswered(payment, raw))]
  {
    var found := GetFound(Snapshot(k, s.db.orders[k]));
    var t := CallChangesNoTable(s, GetFind(k));
    SpawnedRuns(s, GetFind(k), found);
    var rest := GetFinishes(t, found.payment, raw);
    FirstStep(s, GetFind(k), found, rest, Services.AfterGet(s.config, s.db, s.now, k, Services.Answer(raw)));
    run := [GetFind(k)] + rest;
  }

  lemma CancelWriteFinishes(s: World, payment: Payment)
    requires Runs(s, CancelClosed(payment))
    ensures var q := CancelClosed(payment);
      Finishes(s, q, [CancelWrite(q)], UpdateStatus(s.db, s.now, payment.key, Cancelled, "PAY_CLOSED"))
  {
    var q := CancelClosed(payment);
    LastStep(s, q, CancelWrite(q));
  }

  lemma CancelFinishes(s: World, payment: Payment) returns (run: seq<Action>)
    requires Runs(s, CancelFound(payment)) && payment.key in s.provider &&
        MayMove(s.provider[payment.key], "PAY_CLOSED")
    ensures Finishes(s, CancelFound(payment), run, UpdateStatus(s.db, s.now, payment.key, Cancelled, "PAY_CLOSED"))
    ensures run == [CancelClose(CancelFound(payment)), CancelWrite(CancelClosed(payment))]
  {
    var close, closed := CancelClose(CancelFound(payment)), CancelClosed(payment);
    var t := CallChangesNoTable(s, close);
    SpawnedRuns(s, close, closed);
    CancelWriteFinishes(t, payment);
    NextStep(s, CancelFound(payment), close, closed, [CancelWrite(closed)],
             UpdateStatus(s.db, s.now, payment.key, Cancelled, "PAY_CLOSED"));
    run := [close] + [CancelWrite(closed)];
  }

  lemma CancelFinds(s: World, k: PaymentKey) returns (t: World)
    requires k in s.db.orders
    ensures t == Apply(s, CancelFind(k)) && t.db == s.db && t.now == s.now && t.provider == s.provider
    ensures Runs(t, CancelFound(Snapshot(k, s.db.orders[k])))
  {
    t := CallChangesNoTable(s, CancelFind(k));
    SpawnedRuns(s, CancelFind(k), CancelFound(Snapshot(k, s.db.orders[k])));
  }

  lemma CancelBegins(s: World, k: PaymentKey, rest: seq<Action>, db: Db)
    requires k in s.db.orders
    requires Finishes(Apply(s, CancelFind(k)), CancelFound(Snapshot(k, s.db.orders[k])), rest, db)
    ensures Leaves(s, [CancelFind(k)] + rest, db)
  {
    FirstStep(s, CancelFind(k), CancelFound(Snapshot(k, s.db.orders[k])), rest, db);
  }

  lemma CancelIsSchedule(s: World, k: PaymentKey) returns (run: seq<Action>)
    requires k in s.db.orders && k.connection in s.config.connections && k in s.provider &&
        MayMove(s.provider[k], "PAY_CLOSED")
    ensures Leaves(s, run, Services.AfterCancel(s.config, s.db, s.now, k, Services.Answer(())))
    ensures var payment := Snapshot(k, s.db.orders[k]);
      run == [CancelFind(k), CancelClose(CancelFound(payment)), CancelWrite(CancelClosed(payment))]
  {
    run := CancelRuns(s, k);
  }

  lemma CancelRuns(s: World, k: PaymentKey) returns (run: seq<Action>)
    requires k in s.db.orders && k in s.provider && MayMove(s.provider[k], "PAY_CLOSED")
    ensures Leaves(s, run, UpdateStatus(s.db, s.now, k, Cancelled, "PAY_CLOSED"))
    ensures var payment := Snapshot(k, s.db.orders[k]);
      run == [CancelFind(k)] + [CancelClose(CancelFound(payment)), CancelWrite(CancelClosed(payment))]
  {
    var payment := Snapshot(k, s.db.orders[k]);
    var t := CancelFinds(s, k);
    var rest := CancelFinishes(t, payment);
    CancelBegins(s, k, rest, UpdateStatus(s.db, s.now, k, Cancelled, "PAY_CLOSED"));
    run := [CancelFind(k)] + rest;
  }

  // ---- Webhook ---------------------------------------------------------------------------------

  lemma RecordingFinishes(s: World, e: Event, evidence: Evidence)
    requires Runs(s, HookRecording(e, evidence))
    ensures var q := HookRecording(e, evidence);
      Finishes(s, q, [HookRecord(q)], RecordEvent(s.db, s.now, e, evidence))
  {
    var q := HookRecording(e, evidence);
    LastStep(s, q, HookRecord(q));
  }

  function RecordingSteps(payment: Payment, h: Hook, at: Time, stamp: Time): seq<Action> {
    match DecideHook(payment, h, at, stamp)
    case Record(event) => [HookRecord(HookRecording(event, Evidence(h.amount)))]
    case _ => []
  }

  lemma HookFinishes(s: World, payment: Payment, h: Hook, at: Time, stamp: Time) returns (run: seq<Action>)
    requires Runs(s, HookFound(payment, h)) && at <= stamp <= s.now
    ensures Finishes(s, HookFound(payment, h), run, Services.AfterHook(s.db, s.now, payment, h, at, stamp))
    ensures run == [HookDecide(HookFound(payment, h), at, stamp)] + RecordingSteps(payment, h, at, stamp)
  {
    var found := HookFound(payment, h);
    var decide := HookDecide(found, at, stamp);
    var t := CallChangesNoTable(s, decide);
    var decision := DecideHook(payment, h, at, stamp);
    if decision.Record? {
      var q := HookRecording(decision.event, Evidence(h.amount));
      SpawnedRuns(s, decide, q);
      RecordingFinishes(t, decision.event, Evidence(h.amount));
      NextStep(s, found, decide, q, [HookRecord(q)], RecordEvent(s.db, s.now, decision.event, Evidence(h.amount)));
      run := [decide] + [HookRecord(q)];
    } else {
      LastStep(s, found, decide);
      run := [decide];
    }
  }

  lemma HookFinds(s: World, k: PaymentKey, h: Hook) returns (t: World)
    requires Enabled(s, HookFind(k, h))
    ensures t == Apply(s, HookFind(k, h)) && t.db == s.db && t.now == s.now
    ensures Runs(t, HookFound(Snapshot(k, s.db.orders[k]), h))
  {
    t := CallChangesNoTable(s, HookFind(k, h));
    SpawnedRuns(s, HookFind(k, h), HookFound(Snapshot(k, s.db.orders[k]), h));
  }

  lemma HookBegins(s: World, k: PaymentKey, h: Hook, rest: seq<Action>, db: Db)
    requires Enabled(s, HookFind(k, h))
    requires Finishes(Apply(s, HookFind(k, h)), HookFound(Snapshot(k, s.db.orders[k]), h), rest, db)
    ensures Leaves(s, [HookFind(k, h)] + rest, db)
  {
    FirstStep(s, HookFind(k, h), HookFound(Snapshot(k, s.db.orders[k]), h), rest, db);
  }

  lemma HookIsSchedule(s: World, k: PaymentKey, h: Hook, at: Time, stamp: Time) returns (run: seq<Action>)
    requires Enabled(s, HookFind(k, h)) && at <= stamp <= s.now
    ensures Leaves(s, run, Services.AfterHook(s.db, s.now, Snapshot(k, s.db.orders[k]), h, at, stamp))
    ensures var payment := Snapshot(k, s.db.orders[k]);
      run == [HookFind(k, h), HookDecide(HookFound(payment, h), at, stamp)] + RecordingSteps(payment, h, at, stamp)
  {
    var payment := Snapshot(k, s.db.orders[k]);
    var t := HookFinds(s, k, h);
    var rest := HookFinishes(t, payment, h, at, stamp);
    HookBegins(s, k, h, rest, Services.AfterHook(s.db, s.now, payment, h, at, stamp));
    run := [HookFind(k, h)] + rest;
    Joined(HookFind(k, h), HookDecide(HookFound(payment, h), at, stamp), RecordingSteps(payment, h, at, stamp));
  }

  // ---- Reconciliation ----------------------------------------------------------------------------

  lemma RetryFinishes(s: World, k: PaymentKey, message: string)
    requires Runs(s, PollRetrying(k, message))
    ensures Finishes(s, PollRetrying(k, message), [PollRetry(PollRetrying(k, message))],
        RetryReconciliation(s.db, s.now, k, message))
  {
    LastStep(s, PollRetrying(k, message), PollRetry(PollRetrying(k, message)));
  }

  lemma PollRecordFinishes(s: World, e: Event, evidence: Evidence)
    requires Runs(s, PollEmitting(e, evidence)) && (EventRecorded(s.db, e) || CanRecord(s.db, e))
    ensures var q := PollEmitting(e, evidence);
      Finishes(s, q, [PollRecord(q)], RecordEvent(s.db, s.now, e, evidence))
  {
    var q := PollEmitting(e, evidence);
    LastStep(s, q, PollRecord(q));
  }

  /** A collision in the outbox fails the recording, and the failure is stored. */
  function EmittingSteps(db: Db, e: Event, evidence: Evidence): seq<Action> {
    if InboundKey(e.key.connection, e.id) in db.inbound || e.id !in db.outbox
    then [PollRecord(PollEmitting(e, evidence))]
    else [PollRecordFails(PollEmitting(e, evidence), false, Services.VIOLATION),
          PollRetry(PollRetrying(e.key, Services.VIOLATION))]
  }

  function DecidedSteps(db: Db, p: Payment, a: Model.Answer, decision: PollDecision): seq<Action> {
    match decision
    case Retry(message) => [PollRetry(PollRetrying(p.key, message))]
    case Observe(seen) => [PollObserve(PollObserved(seen))]
    case Emit(e) => EmittingSteps(db, e, Evidence(a.amount))
  }

  lemma EmissionFinishes(s: World, e: Event, evidence: Evidence) returns (run: seq<Action>)
    requires Runs(s, PollEmitting(e, evidence))
    ensures Finishes(s, PollEmitting(e, evidence), run, Services.RecordedOrRetried(s.db, s.now, e, evidence))
    ensures run == EmittingSteps(s.db, e, evidence)
  {
    var p := PollEmitting(e, evidence);
    if EventRecorded(s.db, e) || CanRecord(s.db, e) {
      PollRecordFinishes(s, e, evidence);
      run := [PollRecord(p)];
    } else {
      var fails, q := PollRecordFails(p, false, Services.VIOLATION), PollRetrying(e.key, Services.VIOLATION);
      var t := CallChangesNoTable(s, fails);
      SpawnedRuns(s, fails, q);
      RetryFinishes(t, e.key, Services.VIOLATION);
      NextStep(s, p, fails, q, [PollRetry(q)], RetryReconciliation(s.db, s.now, e.key, Services.VIOLATION));
      run := [fails] + [PollRetry(q)];
    }
  }

  lemma ObservationFinishes(s: World, seen: Payment)
    requires Runs(s, PollObserved(seen))
    ensures Finishes(s, PollObserved(seen), [PollObserve(PollObserved(seen))], UpdateObservation(s.db, s.now, seen))
  {
    LastStep(s, PollObserved(seen), PollObserve(PollObserved(seen)));
  }

  /** The rest of a decided reconciliation. */
  lemma DecidedFinishes(s: World, p: Payment, a: Model.Answer, decision: PollDecision, q: Process)
    returns (run: seq<Action>)
    requires Runs(s, q)
    requires q == match decision
                  case Retry(message) => PollRetrying(p.key, message)
                  case Observe(seen) => PollObserved(seen)
                  case Emit(e) => PollEmitting(e, Evidence(a.amount))
    ensures Finishes(s, q, run,
                     match decision
                     case Retry(message) => RetryReconciliation(s.db, s.now, p.key, message)
                     case Observe(seen) => UpdateObservation(s.db, s.now, seen)
                     case Emit(e) => Services.RecordedOrRetried(s.db, s.now, e, Evidence(a.amount)))
    ensures run == DecidedSteps(s.db, p, a, decision)
  {
    match decision {
      case Retry(message) =>
        RetryFinishes(s, p.key, message);
        run := [PollRetry(q)];
      case Observe(seen) =>
        ObservationFinishes(s, seen);
        run := [PollObserve(q)];
      case Emit(e) => run := EmissionFinishes(s, e, Evidence(a.amount));
    }
  }

  lemma DecisionFinishes(s: World, p: Payment, a: Model.Answer, at: Time, stamp: Time) returns (run: seq<Action>)
    requires Runs(s, PollAnswered(p, a)) && at <= stamp <= s.now
    ensures Finishes(s, PollAnswered(p, a), run,
        Services.AfterReconcile(s.config.sha, s.db, s.now, p, Services.Answer(a), at, stamp))
    ensures run == [PollDecide(PollAnswered(p, a), at, stamp)] +
        DecidedSteps(s.db, p, a, DecidePoll(s.config.sha, p, a, at, stamp))
  {
    var decide := PollDecide(PollAnswered(p, a), at, stamp);
    var t := CallChangesNoTable(s, decide);
    var q := Successor(s, decide).value;
    SpawnedRuns(s, decide, q);
    var rest := DecidedFinishes(t, p, a, DecidePoll(s.config.sha, p, a, at, stamp), q);
    NextStep(s, PollAnswered(p, a), decide, q, rest,
             Services.AfterReconcile(s.config.sha, s.db, s.now, p, Services.Answer(a), at, stamp));
    run := [decide] + rest;
  }

  lemma QueryFailureFinishes(s: World, p: Payment, message: string) returns (run: seq<Action>)
    requires Runs(s, PollClaimed(p))
    ensures Finishes(s, PollClaimed(p), run, RetryReconciliation(s.db, s.now, p.key, message))
    ensures run == [PollQueryFails(PollClaimed(p), message), PollRetry(PollRetrying(p.key, message))]
  {
    var fails, q := PollQueryFails(PollClaimed(p), message), PollRetrying(p.key, message);
    var t := CallChangesNoTable(s, fails);
    SpawnedRuns(s, fails, q);
    RetryFinishes(t, p.key, message);
    NextStep(s, PollClaimed(p), fails, q, [PollRetry(q)], RetryReconciliation(s.db, s.now, p.key, message));
    run := [fails] + [PollRetry(q)];
  }

  lemma QueryAnswers(s: World, p: Payment, a: Model.Answer) returns (t: World)
    requires Enabled(s, PollQuery(PollClaimed(p), a))
    ensures t == Apply(s, PollQuery(PollClaimed(p), a))
    ensures t.db == s.db && t.now == s.now && t.config == s.config && Runs(t, PollAnswered(p, a))
  {
    t := CallChangesNoTable(s, PollQuery(PollClaimed(p), a));
    SpawnedRuns(s, PollQuery(PollClaimed(p), a), PollAnswered(p, a));
  }

  lemma QueryBegins(s: World, p: Payment, a: Model.Answer, rest: seq<Action>, db: Db)
    requires Enabled(s, PollQuery(PollClaimed(p), a))
    requires Finishes(Apply(s, PollQuery(PollClaimed(p), a)), PollAnswered(p, a), rest, db)
    ensures Finishes(s, PollClaimed(p), [PollQuery(PollClaimed(p), a)] + rest, db)
  {
    NextStep(s, PollClaimed(p), PollQuery(PollClaimed(p), a), PollAnswered(p, a), rest, db);
  }

  /** A claimed order's reconciliation, whatever the provider answers, is a schedule of its process. */
  lemma ReconcileIsSchedule(s: World, p: Payment, reply: Services.Reply<Model.Answer>, at: Time, stamp: Time)
    returns (run: seq<Action>)
    requires Runs(s, PollClaimed(p)) && at <= stamp <= s.now
    requires reply.Answer? ==> Enabled(s, PollQuery(PollClaimed(p), reply.value))
    ensures Finishes(s, PollClaimed(p), run, Services.AfterReconcile(s.config.sha, s.db, s.now, p, reply, at, stamp))
    ensures match reply
      case Failure(message) =>
        run == [PollQueryFails(PollClaimed(p), message), PollRetry(PollRetrying(p.key, message))]
      case Answer(a) =>
        run == [PollQuery(PollClaimed(p), a), PollDecide(PollAnswered(p, a), at, stamp)] +
            DecidedSteps(s.db, p, a, DecidePoll(s.config.sha, p, a, at, stamp))
  {
    match reply {
      case Failure(message) =>
        run := QueryFailureFinishes(s, p, message);
      case Answer(a) =>
        var t := QueryAnswers(s, p, a);
        var rest := DecisionFinishes(t, p, a, at, stamp);
        QueryBegins(s, p, a, rest, Services.AfterReconcile(s.config.sha, s.db, s.now, p, reply, at, stamp));
        run := [PollQuery(PollClaimed(p), a)] + rest;
    }
  }

  // ---- Refunds -------------------------------------------------------------------------------------

  /** A run that leaves these refunds and exactly these calls. */
  ghost predicate RefundLeaves(s: Refunds.World, run: seq<Refunds.Action>, db: Db, calls: multiset<Refunds.Call>) {
    Refunds.Valid(s, run) && Refunds.Run(s, run).db == db && Refunds.Run(s, run).calls == calls
  }

  lemma RefusalStored(s: Refunds.World, c: Refunds.Call, message: string) returns (run: seq<Refunds.Action>)
    requires c in s.calls && c.Calling?
    ensures RefundLeaves(s, run, FailRefund(s.db, c.key, message), s.calls - multiset{c})
    ensures run == [Refunds.Refuse(c, message), Refunds.Fail(Refunds.Rejected(c.key, c.cmd, message, c.owner))]
  {
    var refuse, fail := Refunds.Refuse(c, message), Refunds.Fail(Refunds.Rejected(c.key, c.cmd, message, c.owner));
    var t := Refunds.Apply(s, refuse);
    Refunds.Prepend(t, fail, []);
    Refunds.Prepend(s, refuse, [fail] + []);
    run := [refuse] + ([fail] + []);
  }

  lemma ResponseStored(s: Refunds.World, c: Refunds.Call, id: string, raw: string, at: Time)
    returns (run: seq<Refunds.Action>)
    requires c in s.calls && c.Calling? && at <= s.now
    ensures RefundLeaves(s, run, CompleteRefund(s.db, c.key, Refunds.NewRefund(c.cmd, id, raw, at)),
        s.calls - multiset{c})
    ensures run == [Refunds.Respond(c, id, raw, at),
                    Refunds.Complete(Refunds.Accepted(c.key, c.cmd, Refunds.NewRefund(c.cmd, id, raw, at), c.owner))]
  {
    var respond := Refunds.Respond(c, id, raw, at);
    var complete := Refunds.Complete(Refunds.Accepted(c.key, c.cmd, Refunds.NewRefund(c.cmd, id, raw, at), c.owner));
    var t := Refunds.Apply(s, respond);
    Refunds.Prepend(t, complete, []);
    Refunds.Prepend(s, respond, [complete] + []);
    run := [respond] + ([complete] + []);
  }

  function Settled(db: Db, key: string, cmd: RefundCommand, reply: Services.Reply<Services.RefundReply>, at: Time): Db {
    match reply
    case Failure(message) => FailRefund(db, key, message)
    case Answer(a) => CompleteRefund(db, key, Refunds.NewRefund(cmd, a.id, a.raw, at))
  }

  function SettlingSteps(c: Refunds.Call, reply: Services.Reply<Services.RefundReply>, at: Time): seq<Refunds.Action>
    requires c.Calling?
  {
    match reply
    case Failure(message) =>
      [Refunds.Refuse(c, message), Refunds.Fail(Refunds.Rejected(c.key, c.cmd, message, c.owner))]
    case Answer(a) =>
      [Refunds.Respond(c, a.id, a.raw, at),
       Refunds.Complete(Refunds.Accepted(c.key, c.cmd, Refunds.NewRefund(c.cmd, a.id, a.raw, at), c.owner))]
  }

  /** Only a key without a row goes on to the provider. */
  function LookedUpSteps(db: Db, key: string, cmd: RefundCommand, reply: Services.Reply<Services.RefundReply>,
                         at: Time):
    seq<Refunds.Action>
  {
    if KeyHasRow(db, key) then [] else SettlingSteps(Refunds.Calling(key, cmd, false), reply, at)
  }

  lemma CallSettles(s: Refunds.World, c: Refunds.Call, reply: Services.Reply<Services.RefundReply>, at: Time)
    returns (run: seq<Refunds.Action>)
    requires c in s.calls && c.Calling? && at <= s.now
    ensures RefundLeaves(s, run, Settled(s.db, c.key, c.cmd, reply, at), s.calls - multiset{c})
    ensures run == SettlingSteps(c, reply, at)
  {
    match reply {
      case Failure(message) => run := RefusalStored(s, c, message);
      case Answer(a) => run := ResponseStored(s, c, a.id, a.raw, at);
    }
  }

  /** From the lookup of a call whose insert did not take. */
  lemma LookupSettles(s: Refunds.World, key: string, cmd: RefundCommand, reply: Services.Reply<Services.RefundReply>,
                      at: Time)
    returns (run: seq<Refunds.Action>)
    requires Refunds.Looking(key, cmd) in s.calls && at <= s.now
    ensures RefundLeaves(s, run, if KeyHasRow(s.db, key) then s.db else Settled(s.db, key, cmd, reply, at),
                         s.calls - multiset{Refunds.Looking(key, cmd)})
    ensures run == [Refunds.Lookup(Refunds.Looking(key, cmd))] +
        LookedUpSteps(s.db, key, cmd, reply, at)
  {
    var look := Refunds.Lookup(Refunds.Looking(key, cmd));
    var t := Refunds.Apply(s, look);
    var rest: seq<Refunds.Action> := [];
    if !KeyHasRow(s.db, key) {
      rest := CallSettles(t, Refunds.Calling(key, cmd, false), reply, at);
    }
    Refunds.Prepend(s, look, rest);
    run := [look] + rest;
  }

  /** CreateRefund, uninterrupted, is a schedule of the refund protocol. */
  lemma RefundIsSchedule(s: Refunds.World, key: string, payment: PaymentKey, cmd: RefundCommand,
                         reply: Services.Reply<Services.RefundReply>, at: Time) returns (run: seq<Refunds.Action>)
    requires at <= s.now
    ensures RefundLeaves(s, run, Services.AfterRefund(s.config, s.db, s.now, key, payment, cmd, reply, at), s.calls)
    ensures !Refunds.ValidRefund(s.config, s.db, key, payment, cmd) ==> run == []
    ensures Refunds.ValidRefund(s.config, s.db, key, payment, cmd) ==>
              run == [Refunds.Insert(key, payment, cmd)] +
                if CanInsertRefund(s.db, key, cmd) then SettlingSteps(Refunds.Calling(key, cmd, true), reply, at)
                else [Refunds.Lookup(Refunds.Looking(key, cmd))] + LookedUpSteps(s.db, key, cmd, reply, at)
  {
    run := [];
    if Refunds.ValidRefund(s.config, s.db, key, payment, cmd) {
      var insert := Refunds.Insert(key, payment, cmd);
      var t := Refunds.Apply(s, insert);
      Services.InsertedKey(s.db, s.now, key, s.config.refundFingerprint(cmd), cmd);
      if CanInsertRefund(s.db, key, cmd) {
        run := CallSettles(t, Refunds.Calling(key, cmd, true), reply, at);
      } else {
        run := LookupSettles(t, key, cmd, reply, at);
      }
      Refunds.Prepend(s, insert, run);
      run := [insert] + run;
    }
  }
}
