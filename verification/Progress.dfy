/**
 When reconciling makes progress: with fresh answers each successful reconciliation of an order the
 provider has finished finishes it; with a stale one in between, an order can be stranded for ever.
 */
module Progress {
  import opened Basics
  import opened Model
  import opened Statuses
  import opened Text
  import opened Tables
  import opened Statements
  import opened Decisions
  import opened EventIds
  import opened Protocol
  import opened Agreement
  import opened Schedule
  import opened Outcomes
  import opened Announcements
  import opened Reachability
  import Services

  // ---- Progress when answers are fresh ------------------------------------------------------

  /** The step writes no status but the provider's present one. */
  ghost predicate Fresh(s: World, a: Action)
    requires Enabled(s, a)
  {
    forall k :: k in s.db.orders && k in s.provider && ChangeBy(s, a, k).Rewrite? ==>
      EqualFold(ChangeBy(s, a, k).raw, s.provider[k].current)
  }

  ghost predicate FreshRun(s: World, run: seq<Action>)
    requires Valid(s, run)
    decreases |run|
  {
    run == [] || (Fresh(s, run[0]) && FreshRun(Apply(s, run[0]), run[1..]))
  }

  lemma FreshStepKeepsFinished(s: World, a: Action, k: PaymentKey)
    requires Sound(s) && Enabled(s, a) && Fresh(s, a) && k in s.db.orders && !Open(s.db.orders[k].status)
    ensures k in Apply(s, a).db.orders && !Open(Apply(s, a).db.orders[k].status)
  {
    StepChangesRow(s, a, k);
    if ChangeBy(s, a, k).Rewrite? {
      FreshRewriteIsFinal(s, a, k);
    }
  }

  lemma FreshRewriteIsFinal(s: World, a: Action, k: PaymentKey)
    requires Sound(s) && Enabled(s, a) && Fresh(s, a) && k in s.db.orders && !Open(s.db.orders[k].status)
    requires ChangeBy(s, a, k).Rewrite?
    ensures !Open(ChangeBy(s, a, k).status)
  {
    var o := s.db.orders[k];
    FinishedOrderCurrent(s, k);
    FitsKeepsFinality(o.status, o.raw, o.terms.expiresAt, s.now);
    FinalFolds(o.raw, s.provider[k].current);
    FinalFolds(ChangeBy(s, a, k).raw, s.provider[k].current);
    RewriteFits(s, a, k);
  }

  /** A recorded final event means a finished order. */
  ghost predicate FinalEventsApplied(s: World) {
    forall id :: id in s.db.outbox && Final(s.db.outbox[id].event.raw) ==>
      s.db.outbox[id].event.key in s.db.orders && !Open(s.db.orders[s.db.outbox[id].event.key].status)
  }

  lemma FreshStepAppliesEvents(s: World, a: Action)
    requires Sound(s) && FinalEventsApplied(s) && Enabled(s, a) && Fresh(s, a)
    ensures FinalEventsApplied(Apply(s, a))
  {
    var t, q := Apply(s, a), StatementOf(s, a);
    forall id | id in t.db.outbox && Final(t.db.outbox[id].event.raw)
      ensures t.db.outbox[id].event.key in t.db.orders && !Open(t.db.orders[t.db.outbox[id].event.key].status)
    {
      OutboxChanges(s.db, s.now, q, id);
      var k := t.db.outbox[id].event.key;
      if id in s.db.outbox {
        FreshStepKeepsFinished(s, a, k);
      } else {
        SubjectRuns(s, a);
        StatementJustified(s, a);
        StepChangesRow(s, a, k);
        RewriteFits(s, a, k);
      }
    }
  }

  lemma {:induction false} FreshRunAppliesEvents(s: World, run: seq<Action>)
    requires Sound(s) && FinalEventsApplied(s) && Valid(s, run) && FreshRun(s, run)
    ensures FinalEventsApplied(Run(s, run)) && Sound(Run(s, run))
    ensures forall k :: k in s.db.orders && !Open(s.db.orders[k].status) ==>
              k in Run(s, run).db.orders && !Open(Run(s, run).db.orders[k].status)
    decreases |run|
  {
    if run != [] {
      StepSound(s, run[0]);
      FreshStepAppliesEvents(s, run[0]);
      forall k | k in s.db.orders && !Open(s.db.orders[k].status)
        ensures k in Apply(s, run[0]).db.orders && !Open(Apply(s, run[0]).db.orders[k].status)
      {
        FreshStepKeepsFinished(s, run[0], k);
      }
      FreshRunAppliesEvents(Apply(s, run[0]), run[1..]);
    }
  }

  /** As long as every later write is fresh, a finished order stays finished. */
  lemma FinishedStaysFinishedWhenFresh(s: World, run: seq<Action>, k: PaymentKey)
    requires Reachable(s) && k in s.db.orders && !Open(s.db.orders[k].status)
    requires Valid(s, run) && FreshRun(s, run)
    ensures k in Run(s, run).db.orders && !Open(Run(s, run).db.orders[k].status)
  {
    ReachableSound(s);
    FreshRunKeepsFinished(s, run, k);
  }

  lemma {:induction false} FreshRunKeepsFinished(s: World, run: seq<Action>, k: PaymentKey)
    requires Sound(s) && Valid(s, run) && FreshRun(s, run) && k in s.db.orders && !Open(s.db.orders[k].status)
    ensures k in Run(s, run).db.orders && !Open(Run(s, run).db.orders[k].status)
    decreases |run|
  {
    if run != [] {
      StepSound(s, run[0]);
      FreshStepKeepsFinished(s, run[0], k);
      FreshRunKeepsFinished(Apply(s, run[0]), run[1..], k);
    }
  }

  /** The step writes the order with a raw status that is not the provider's present one. */
  ghost predicate WritesStale(s: World, a: Action, k: PaymentKey)
    requires Enabled(s, a)
  {
    && k in s.provider && ChangeBy(s, a, k).Rewrite?
    && !EqualFold(ChangeBy(s, a, k).raw, s.provider[k].current)
  }

  predicate Finished(s: World, k: PaymentKey) {
    k in s.db.orders && !Open(s.db.orders[k].status)
  }

  ghost predicate AlwaysFinished(s: World, run: seq<Action>, k: PaymentKey)
    requires Valid(s, run)
    decreases |run|
  {
    Finished(s, k) && (run == [] || AlwaysFinished(Apply(s, run[0]), run[1..], k))
  }

  ghost predicate NeverStale(s: World, run: seq<Action>, k: PaymentKey)
    requires Valid(s, run)
    decreases |run|
  {
    run == [] || (!WritesStale(s, run[0], k) && NeverStale(Apply(s, run[0]), run[1..], k))
  }

  lemma StaysFinishedStep(s: World, a: Action, k: PaymentKey)
    requires Sound(s) && Enabled(s, a) && Finished(s, k)
    ensures Finished(Apply(s, a), k) <==> !WritesStale(s, a, k)
  {
    StepChangesRow(s, a, k);
    FinishedOrderCurrent(s, k);
    if ChangeBy(s, a, k).Rewrite? {
      RewriteOpensExactly(s, a, k);
    }
  }

  lemma NotFinished(s: World, run: seq<Action>, k: PaymentKey)
    requires Valid(s, run) && !Finished(s, k)
    ensures !AlwaysFinished(s, run, k)
  {
  }

  lemma {:induction false} RunFinishedExactly(s: World, run: seq<Action>, k: PaymentKey)
    requires Sound(s) && Valid(s, run) && Finished(s, k)
    ensures AlwaysFinished(s, run, k) <==> NeverStale(s, run, k)
    decreases |run|
  {
    if run != [] {
      StaysFinishedStep(s, run[0], k);
      StepSound(s, run[0]);
      if Finished(Apply(s, run[0]), k) {
        RunFinishedExactly(Apply(s, run[0]), run[1..], k);
      } else {
        NotFinished(Apply(s, run[0]), run[1..], k);
      }
    }
  }

  /**
   A finished order stays finished throughout a run if and only if no step of the run writes it
   with a raw status that is not the provider's present one.
   */
  lemma StaysFinishedExactly(s: World, run: seq<Action>, k: PaymentKey)
    requires Reachable(s) && Valid(s, run) && Finished(s, k)
    ensures AlwaysFinished(s, run, k) <==> NeverStale(s, run, k)
  {
    ReachableSound(s);
    RunFinishedExactly(s, run, k);
  }

  /** Unfinished orders whose provider has finished. */
  function Lagging(s: World): set<PaymentKey> {
    set k | k in s.db.orders && Open(s.db.orders[k].status) && k in s.provider && Final(s.provider[k].current)
  }

  /** No other recorded poll event shares a poll event's truncated hash. */
  ghost predicate CollisionFree(s: World, e: Event) {
    forall id :: id in s.db.outbox && s.db.outbox[id].event.source == Poll ==>
      !Collision(s.config.sha, PollSeed(e.key, e.raw), PollSeed(s.db.outbox[id].event.key, s.db.outbox[id].event.raw))
  }

  /** What every state of a fresh run satisfies. */
  ghost predicate Progressing(s: World) {
    Sound(s) && FinalEventsApplied(s) && Unambiguous(s.config.connections)
  }

  lemma {:induction false} FreshRunProgresses(s: World, run: seq<Action>)
    requires Progressing(s) && Valid(s, run) && FreshRun(s, run)
    ensures Progressing(Run(s, run))
    decreases |run|
  {
    if run != [] {
      FreshStepProgresses(s, run[0]);
      FreshRunProgresses(Apply(s, run[0]), run[1..]);
    }
  }

  lemma FreshFromStart(config: Config, now: Time, run: seq<Action>)
    requires Valid(Start(config, now), run) && FreshRun(Start(config, now), run) && Unambiguous(config.connections)
    ensures var s := Run(Start(config, now), run); Progressing(s) && s.config == config && Scheduled(s.db.orders)
  {
    StartSound(config, now);
    FreshRunProgresses(Start(config, now), run);
    RunKeepsConfig(Start(config, now), run);
    ScheduledThroughout(Start(config, now), run);
  }

  /** An outbox row with a poll event's id is a poll event of the same order, and in the inbox. */
  lemma SameIdSameOrder(s: World, e: Event)
    requires Progressing(s) && EventOk(s, e) && e.source == Poll && CollisionFree(s, e) && e.id in s.db.outbox
    ensures var f := s.db.outbox[e.id].event; f.key == e.key && Final(f.raw)
    ensures EventRecorded(s.db, e)
  {
    assert OutboxRowOk(s, e.id);
    var f := s.db.outbox[e.id].event;
    assert OrderOk(s, e.key, s.db.orders[e.key]) && OrderOk(s, f.key, s.db.orders[f.key]);
    HookIdsAreNotPollIds(s.config.sha, f.key.id, f.raw, e.key, e.raw);
    PollIdInjective(s.config.sha, s.config.connections, e.key, e.raw, f.key, f.raw);
  }

  lemma OpenEventIsNew(s: World, e: Event)
    requires Progressing(s) && EventOk(s, e) && e.source == Poll && CollisionFree(s, e)
    requires Open(s.db.orders[e.key].status)
    ensures CanRecord(s.db, e)
  {
    if e.id in s.db.outbox {
      SameIdSameOrder(s, e);
    } else {
      NewInboxToo(s, e);
    }
  }

  lemma NewInboxToo(s: World, e: Event)
    requires BoxesAgree(s.db) && e.id !in s.db.outbox
    ensures CanRecord(s.db, e)
  {
  }

  /** A poll event's order, if unfinished, is one whose provider has finished. */
  lemma OpenEventLags(s: World, e: Event)
    requires Sound(s) && EventOk(s, e) && e.source == Poll && Open(s.db.orders[e.key].status)
    ensures e.key in Lagging(s)
  {
    assert LedgerOk(s.provider[e.key]);
    FinalFolds(e.raw, s.provider[e.key].current);
  }

  lemma RecordingShrinksLagging(s: World, p: Process)
    requires Sound(s) && p in s.processes && p.PollEmitting? && CanRecord(s.db, p.event) && p.event.key in Lagging(s)
    ensures var t := Apply(s, PollRecord(p));
      && p.event.key in t.db.orders && t.db.orders[p.event.key].status == p.event.status && !Open(p.event.status)
      && Lagging(t) == Lagging(s) - {p.event.key}
      && |Lagging(t)| < |Lagging(s)|
  {
    var e := p.event;
    assert EventOk(s, e) by {
      assert ProcessOk(s, p);
    }
    FitsKeepsFinality(e.status, e.raw, s.db.orders[e.key].terms.expiresAt, e.observedAt);
    RecordingWritesOneRow(s, p);
    LaggingWithout(s, Apply(s, PollRecord(p)), e.key);
  }

  /** Finishing one lagging order and touching no other leaves one fewer lagging. */
  lemma LaggingWithout(s: World, t: World, k: PaymentKey)
    requires k in Lagging(s) && t.provider == s.provider
    requires k in t.db.orders && !Open(t.db.orders[k].status) && t.db.orders == s.db.orders[k := t.db.orders[k]]
    ensures Lagging(t) == Lagging(s) - {k} && |Lagging(t)| < |Lagging(s)|
  {
    assert Lagging(t) == Lagging(s) - {k};
    assert |Lagging(t)| + 1 == |Lagging(s)|;
  }

  lemma RecordingWritesOneRow(s: World, p: Process)
    requires p in s.processes && p.PollEmitting? && CanRecord(s.db, p.event) && p.event.key in s.db.orders
    ensures var t, e := Apply(s, PollRecord(p)), p.event;
      && t.provider == s.provider
      && t.db.orders == s.db.orders[e.key := Written(s.db.orders[e.key], s.now, e.status, e.raw, e.observedAt)]
  {
  }

  /**
   In general, recording a poll finishes its order exactly when the order was finished or the
   event's id is new to inbox and outbox.
   */
  lemma RecordingFinishesExactly(s: World, p: Process)
    requires Reachable(s) && p in s.processes && p.PollEmitting?
    ensures var k, t := p.event.key, RecordEvent(s.db, s.now, p.event, p.evidence);
      && k in s.db.orders && k in t.orders
      && (!Open(t.orders[k].status) <==> !Open(s.db.orders[k].status) || CanRecord(s.db, p.event))
  {
    ReachableSound(s);
    assert ProcessOk(s, p);
    var e := p.event;
    FitsKeepsFinality(e.status, e.raw, s.db.orders[e.key].terms.expiresAt, e.observedAt);
  }

  // ---- From the claimed order to the finished one ----------------------------------------------

  /** An answer that matches the claimed order and gives its provider's present status. */
  ghost predicate FreshAnswer(s: World, p: Payment, a: Answer) {
    && Matches(p, a.id, a.currency, a.amount) && Held(s.provider, p.key, a.raw)
    && EqualFold(a.raw, s.provider[p.key].current)
  }

  function PollEvent(sha: Hash, p: Payment, a: Answer, at: Time, stamp: Time): Event {
    NewEvent(p.(status := Settle(a.raw, p.terms.expiresAt, at), raw := a.raw, observedAt := stamp),
             PollId(sha, p.key, a.raw), Poll, a.transaction)
  }

  lemma DecidesEmission(sha: Hash, p: Payment, a: Answer, at: Time, stamp: Time)
    requires Matches(p, a.id, a.currency, a.amount) && Final(a.raw)
    ensures DecidePoll(sha, p, a, at, stamp) == Emit(PollEvent(sha, p, a, at, stamp))
  {
    SettleFits(a.raw, p.terms.expiresAt, at, at);
    FitsKeepsFinality(Settle(a.raw, p.terms.expiresAt, at), a.raw, p.terms.expiresAt, at);
  }

  lemma QueryToAnswer(s: World, p: Payment, a: Answer) returns (t: World)
    requires PollClaimed(p) in s.processes && FreshAnswer(s, p, a)
    ensures Enabled(s, PollQuery(PollClaimed(p), a)) && t == Apply(s, PollQuery(PollClaimed(p), a))
    ensures t == s.(processes := s.processes - multiset{PollClaimed(p)} + multiset{PollAnswered(p, a)})
  {
    t := Apply(s, PollQuery(PollClaimed(p), a));
  }

  /** Query and decision change no table; the event is about to be recorded. */
  lemma PollToEmission(s: World, p: Payment, a: Answer, at: Time, stamp: Time) returns (u: World, t: World)
    requires PollClaimed(p) in s.processes && FreshAnswer(s, p, a) && Final(a.raw) && at <= stamp <= s.now
    ensures var query, decide := PollQuery(PollClaimed(p), a), PollDecide(PollAnswered(p, a), at, stamp);
      && Enabled(s, query) && u == Apply(s, query) && Enabled(u, decide) && t == Apply(u, decide)
    ensures t == s.(processes := t.processes)
    ensures PollEmitting(PollEvent(s.config.sha, p, a, at, stamp), Evidence(a.amount)) in t.processes
  {
    u := QueryToAnswer(s, p, a);
    t := DecideToEmission(u, p, a, at, stamp);
  }

  lemma DecideToEmission(s: World, p: Payment, a: Answer, at: Time, stamp: Time) returns (t: World)
    requires PollAnswered(p, a) in s.processes && Matches(p, a.id, a.currency, a.amount) && Final(a.raw)
    requires at <= stamp <= s.now
    ensures var decide := PollDecide(PollAnswered(p, a), at, stamp); Enabled(s, decide) && t == Apply(s, decide)
    ensures t == s.(processes := t.processes)
    ensures PollEmitting(PollEvent(s.config.sha, p, a, at, stamp), Evidence(a.amount)) in t.processes
  {
    DecidesEmission(s.config.sha, p, a, at, stamp);
    t := Apply(s, PollDecide(PollAnswered(p, a), at, stamp));
  }

  /** The steps of one reconciliation that emits its event. */
  function Reconciliation(sha: Hash, p: Payment, a: Answer, at: Time, stamp: Time): seq<Action> {
    [PollQuery(PollClaimed(p), a), PollDecide(PollAnswered(p, a), at, stamp),
     PollRecord(PollEmitting(PollEvent(sha, p, a, at, stamp), Evidence(a.amount)))]
  }

  lemma ThreeSteps(s: World, a: Action, b: Action, c: Action)
    requires Enabled(s, a) && Enabled(Apply(s, a), b) && Enabled(Apply(Apply(s, a), b), c)
    ensures Valid(s, [a, b, c]) && Run(s, [a, b, c]) == Apply(Apply(Apply(s, a), b), c)
  {
    var u := Apply(s, a);
    var v := Apply(u, b);
    assert Valid(Apply(v, c), []) && Run(Apply(v, c), []) == Apply(v, c);
    Prepend(v, c, []);
    Prepend(u, b, [c] + []);
    Prepend(s, a, [b] + ([c] + []));
    assert [a] + ([b] + ([c] + [])) == [a, b, c];
  }

  /** After a fresh run the event of a claimed lagging order's fresh answer checks out and is new. */
  lemma FreshAnswerRecords(s: World, p: Payment, a: Answer, at: Time, stamp: Time)
    requires Progressing(s) && PollClaimed(p) in s.processes && p.key in Lagging(s) && FreshAnswer(s, p, a)
    requires at <= stamp <= s.now && CollisionFree(s, PollEvent(s.config.sha, p, a, at, stamp))
    ensures Final(a.raw) && CanRecord(s.db, PollEvent(s.config.sha, p, a, at, stamp))
  {
    FinalFolds(a.raw, s.provider[p.key].current);
    ClaimedEventOk(s, p, a, at, stamp);
    OpenEventIsNew(s, PollEvent(s.config.sha, p, a, at, stamp));
  }

  lemma ClaimedEventOk(s: World, p: Payment, a: Answer, at: Time, stamp: Time)
    requires Sound(s) && PollClaimed(p) in s.processes && FreshAnswer(s, p, a) && Final(a.raw) && at <= stamp <= s.now
    ensures EventOk(s, PollEvent(s.config.sha, p, a, at, stamp))
  {
    assert ProcessOk(s, PollClaimed(p));
    assert OrderOk(s, p.key, s.db.orders[p.key]);
    PollDecisionOk(s, p, a, at, stamp);
    DecidesEmission(s.config.sha, p, a, at, stamp);
  }

  lemma EmissionLeaves(s: World, p: Process)
    requires p in s.processes && p.PollEmitting? && CanRecord(s.db, p.event)
    ensures Enabled(s, PollRecord(p))
    ensures Apply(s, PollRecord(p)).db == Services.RecordedOrRetried(s.db, s.now, p.event, p.evidence)
  {
  }

  lemma EmissionFinishes(s: World, p: Process)
    requires Sound(s) && p in s.processes && p.PollEmitting? && CanRecord(s.db, p.event) && p.event.key in Lagging(s)
    ensures Enabled(s, PollRecord(p))
    ensures var t, k := Apply(s, PollRecord(p)), p.event.key;
      && t.db == Services.RecordedOrRetried(s.db, s.now, p.event, p.evidence)
      && k in t.db.orders && t.db.orders[k].status == p.event.status && !Open(p.event.status)
      && Lagging(t) == Lagging(s) - {k} && |Lagging(t)| < |Lagging(s)|
  {
    RecordingShrinksLagging(s, p);
    EmissionLeaves(s, p);
  }

  lemma AfterEmission(sha: Hash, db: Db, now: Time, p: Payment, a: Answer, at: Time, stamp: Time)
    requires Matches(p, a.id, a.currency, a.amount) && Final(a.raw)
    ensures Services.AfterReconcile(sha, db, now, p, Services.Answer(a), at, stamp) ==
              Services.RecordedOrRetried(db, now, PollEvent(sha, p, a, at, stamp), Evidence(a.amount))
  {
    DecidesEmission(sha, p, a, at, stamp);
  }

  /** The reconciliation of a lagging order whose event is new. */
  lemma ReconciliationFinishes(s: World, p: Payment, a: Answer, at: Time, stamp: Time)
    requires Sound(s) && PollClaimed(p) in s.processes && p.key in Lagging(s)
    requires FreshAnswer(s, p, a) && Final(a.raw) && at <= stamp <= s.now
    requires CanRecord(s.db, PollEvent(s.config.sha, p, a, at, stamp))
    ensures Valid(s, Reconciliation(s.config.sha, p, a, at, stamp))
    ensures var t := Run(s, Reconciliation(s.config.sha, p, a, at, stamp));
      && t.db == Services.AfterReconcile(s.config.sha, s.db, s.now, p, Services.Answer(a), at, stamp)
      && p.key in t.db.orders && t.db.orders[p.key].status == Settle(a.raw, p.terms.expiresAt, at)
      && !Open(t.db.orders[p.key].status)
      && Lagging(t) == Lagging(s) - {p.key}
      && |Lagging(t)| < |Lagging(s)|
  {
    var query, decide := PollQuery(PollClaimed(p), a), PollDecide(PollAnswered(p, a), at, stamp);
    var q := PollEmitting(PollEvent(s.config.sha, p, a, at, stamp), Evidence(a.amount));
    var u, t := PollToEmission(s, p, a, at, stamp);
    TwoStepsSound(s, query, decide);
    SameLagging(s, t);
    EmissionFinishes(t, q);
    AfterEmission(s.config.sha, s.db, s.now, p, a, at, stamp);
    ThreeSteps(s, query, decide, PollRecord(q));
  }

  lemma TwoStepsSound(s: World, a: Action, b: Action)
    requires Sound(s) && Enabled(s, a) && Enabled(Apply(s, a), b)
    ensures Sound(Apply(Apply(s, a), b))
  {
    StepSound(s, a);
    StepSound(Apply(s, a), b);
  }

  lemma SameLagging(s: World, t: World)
    requires t.db == s.db && t.provider == s.provider
    ensures Lagging(t) == Lagging(s)
  {
  }

  /** The link to the service: a reconciliation at once leaves the tables of ReconcilePayment. */
  lemma ReconciliationAtOnce(config: Config, now: Time, run: seq<Action>, p: Payment, a: Answer, at: Time, stamp: Time)
    requires Valid(Start(config, now), run) && FreshRun(Start(config, now), run) && Unambiguous(config.connections)
    requires var s := Run(Start(config, now), run);
      && PollClaimed(p) in s.processes && p.key in Lagging(s) && FreshAnswer(s, p, a) && at <= stamp <= s.now
      && CollisionFree(s, PollEvent(config.sha, p, a, at, stamp))
    ensures Valid(Run(Start(config, now), run), Reconciliation(config.sha, p, a, at, stamp))
    ensures var s := Run(Start(config, now), run);
      var t := Run(s, Reconciliation(config.sha, p, a, at, stamp));
      && t.db == Services.AfterReconcile(config.sha, s.db, s.now, p, Services.Answer(a), at, stamp)
      && p.key in t.db.orders && t.db.orders[p.key].status == Settle(a.raw, p.terms.expiresAt, at)
      && !Open(t.db.orders[p.key].status)
      && Lagging(t) == Lagging(s) - {p.key}
      && |Lagging(t)| < |Lagging(s)|
  {
    FreshFromStart(config, now, run);
    FreshAnswerRecords(Run(Start(config, now), run), p, a, at, stamp);
    ReconciliationFinishes(Run(Start(config, now), run), p, a, at, stamp);
  }

  // ---- Every recording makes progress ------------------------------------------------------------

  /** Recording a poll finishes its order, and touches no other. */
  ghost predicate RecordingFinishes(s: World, p: Process)
    requires p.PollEmitting?
  {
    && Enabled(s, PollRecord(p))
    && var t, k := Apply(s, PollRecord(p)), p.event.key;
       && Finished(t, k) && Lagging(t) == Lagging(s) - {k}
       && (!Finished(s, k) ==> k in Lagging(s) && |Lagging(t)| < |Lagging(s)|)
  }

  lemma RecordingOpenOrder(s: World, p: Process)
    requires Progressing(s) && p in s.processes && p.PollEmitting? && CollisionFree(s, p.event)
    requires !Finished(s, p.event.key)
    ensures RecordingFinishes(s, p)
  {
    assert ProcessOk(s, p);
    OpenEventIsNew(s, p.event);
    OpenEventLags(s, p.event);
    EmissionFinishes(s, p);
  }

  lemma RecordingFinishedOrder(s: World, p: Process)
    requires Progressing(s) && p in s.processes && p.PollEmitting? && CollisionFree(s, p.event)
    requires Finished(s, p.event.key)
    ensures RecordingFinishes(s, p)
  {
    assert ProcessOk(s, p);
    if p.event.id in s.db.outbox {
      SameIdSameOrder(s, p.event);
      RecordedFinishes(s, p);
    } else {
      NewInboxToo(s, p.event);
      FinishedAgain(s, p);
    }
  }

  lemma RecordedFinishes(s: World, p: Process)
    requires p in s.processes && p.PollEmitting? && EventRecorded(s.db, p.event) && Finished(s, p.event.key)
    ensures RecordingFinishes(s, p)
  {
    RecordedAgain(s, p);
    SameLagging(s, Apply(s, PollRecord(p)));
    assert Lagging(s) == Lagging(s) - {p.event.key};
  }

  lemma FinishedAgain(s: World, p: Process)
    requires p in s.processes && p.PollEmitting? && EventOk(s, p.event) && p.event.source == Poll
    requires CanRecord(s.db, p.event) && Finished(s, p.event.key)
    ensures RecordingFinishes(s, p)
  {
    var e := p.event;
    FitsKeepsFinality(e.status, e.raw, s.db.orders[e.key].terms.expiresAt, e.observedAt);
    RecordingWritesOneRow(s, p);
    LaggingSame(s, Apply(s, PollRecord(p)), e.key);
  }

  lemma RecordedAgain(s: World, p: Process)
    requires p in s.processes && p.PollEmitting? && EventRecorded(s.db, p.event)
    ensures Enabled(s, PollRecord(p))
    ensures Apply(s, PollRecord(p)).db == s.db && Apply(s, PollRecord(p)).provider == s.provider
  {
  }

  /** Rewriting a finished order as finished changes who lags by nothing. */
  lemma LaggingSame(s: World, t: World, k: PaymentKey)
    requires Finished(s, k) && Finished(t, k) && t.provider == s.provider
    requires t.db.orders == s.db.orders[k := t.db.orders[k]]
    ensures k !in Lagging(s) && Lagging(t) == Lagging(s) - {k}
  {
    assert Lagging(t) == Lagging(s);
  }

  lemma EmissionProgresses(s: World, p: Process)
    requires Progressing(s) && p in s.processes && p.PollEmitting? && CollisionFree(s, p.event)
    ensures RecordingFinishes(s, p)
  {
    if Finished(s, p.event.key) {
      RecordingFinishedOrder(s, p);
    } else {
      RecordingOpenOrder(s, p);
    }
  }

  /**
   After any fresh run, every poll about to record, however its claim, query and decision were
   interleaved with other steps, can record: its order is finished afterwards, and no other order
   lags more. If the order was unfinished, strictly fewer orders lag.
   */
  lemma ReconcileProgress(config: Config, now: Time, run: seq<Action>, p: Process)
    requires Valid(Start(config, now), run) && FreshRun(Start(config, now), run) && Unambiguous(config.connections)
    requires var s := Run(Start(config, now), run);
      p in s.processes && p.PollEmitting? && CollisionFree(s, p.event)
    ensures RecordingFinishes(Run(Start(config, now), run), p)
  {
    FreshFromStart(config, now, run);
    EmissionProgresses(Run(Start(config, now), run), p);
  }

  // ---- No lagging order is forgotten -------------------------------------------------------------

  /** A process holds the order's claim. */
  ghost predicate Holds(s: World, k: PaymentKey) {
    exists p: Payment :: PollClaimed(p) in s.processes && p.key == k
  }

  lemma ClaimHolds(s: World, a: Action, k: PaymentKey)
    requires Enabled(s, a) && a.ClaimBatch? && k in a.keys
    ensures Holds(Apply(s, a), k)
  {
    var db := Claim(s.db, s.now, a.keys);
    var i :| 0 <= i < |a.keys| && a.keys[i] == k;
    var p := PollClaimed(Snapshot(k, db.orders[k]));
    assert Spawned(db, a.keys)[i] == p;
    assert p in multiset(Spawned(db, a.keys));
    assert p in Apply(s, a).processes;
  }

  /** While only claims move its row, an unfinished order of a finished provider keeps lagging. */
  lemma LagsOn(s: World, a: Action, k: PaymentKey)
    requires Enabled(s, a) && k in Lagging(s) && !ChangeBy(s, a, k).Rewrite?
    ensures k in Lagging(Apply(s, a))
  {
    StepChangesRow(s, a, k);
    ProviderStaysFinal(s, a, k);
  }

  lemma FreshStepProgresses(s: World, a: Action)
    requires Progressing(s) && Enabled(s, a) && Fresh(s, a)
    ensures Progressing(Apply(s, a))
  {
    StepSound(s, a);
    FreshStepAppliesEvents(s, a);
  }

  /** A run after which a process holds the still lagging order's claim. */
  ghost predicate ReachesClaim(s: World, run: seq<Action>, k: PaymentKey) {
    Valid(s, run) && Progressing(Run(s, run)) && k in Lagging(Run(s, run)) && Holds(Run(s, run), k)
  }

  lemma ClaimStep(s: World, a: Action, k: PaymentKey)
    requires Progressing(s) && k in Lagging(s) && Enabled(s, a) && Fresh(s, a) && !ChangeBy(s, a, k).Rewrite?
    ensures Progressing(Apply(s, a)) && k in Lagging(Apply(s, a))
  {
    LagsOn(s, a, k);
    FreshStepProgresses(s, a);
  }

  lemma ClaimNow(s: World, a: Action, k: PaymentKey)
    requires Enabled(s, a) && Progressing(Apply(s, a)) && k in Lagging(Apply(s, a)) && a.ClaimBatch? && k in a.keys
    ensures ReachesClaim(s, [a], k)
  {
    ClaimHolds(s, a, k);
    Prepend(s, a, []);
    assert [a] + [] == [a];
  }

  lemma ClaimLater(s: World, a: Action, rest: seq<Action>, k: PaymentKey)
    requires Enabled(s, a) && ReachesClaim(Apply(s, a), rest, k)
    ensures ReachesClaim(s, [a] + rest, k)
  {
    Prepend(s, a, rest);
  }

  /** The moment of a run at which an order is claimed. */
  lemma {:induction false} ClaimMoment(s: World, run: seq<Action>, k: PaymentKey) returns (prefix: seq<Action>)
    requires Progressing(s) && k in Lagging(s) && Valid(s, run) && FreshRun(s, run)
    requires OnlyClaimed(s, run, k) && ClaimedIn(s, run, k)
    ensures prefix <= run && ReachesClaim(s, prefix, k)
    decreases |run|
  {
    var a := run[0];
    ClaimStep(s, a, k);
    if a.ClaimBatch? && k in a.keys {
      ClaimNow(s, a, k);
      prefix := [a];
    } else {
      var rest := ClaimMoment(Apply(s, a), run[1..], k);
      ClaimLater(s, a, rest, k);
      prefix := [a] + rest;
    }
  }

  ghost predicate AboutToRecord(s: World, p: Process, k: PaymentKey) {
    p in s.processes && p.PollEmitting? && p.event.key == k && CollisionFree(s, p.event)
  }

  /** From here on, whenever a poll of the order is about to record in a fresh run, it finishes the order. */
  ghost predicate WillFinish(s: World, k: PaymentKey) {
    forall run, p | Valid(s, run) && FreshRun(s, run) && AboutToRecord(Run(s, run), p, k) ::
      RecordingFinishes(Run(s, run), p)
  }

  lemma ProgressingFinishes(s: World, k: PaymentKey)
    requires Progressing(s)
    ensures WillFinish(s, k)
  {
    forall run, p | Valid(s, run) && FreshRun(s, run) && AboutToRecord(Run(s, run), p, k)
      ensures RecordingFinishes(Run(s, run), p)
    {
      FreshRunProgresses(s, run);
      EmissionProgresses(Run(s, run), p);
    }
  }

  /**
   In fresh runs a due lagging order that nothing else rewrites is claimed within
   floor(ahead / 50) + 1 batches that do not find its row locked; and from that claim on, in every
   fresh continuation, the recording of a poll of it finishes it.
   */
  lemma LaggingOrderServed(config: Config, now: Time, run: seq<Action>, more: seq<Action>, k: PaymentKey)
    returns (prefix: seq<Action>)
    requires Valid(Start(config, now), run) && FreshRun(Start(config, now), run) && Unambiguous(config.connections)
    requires var s := Run(Start(config, now), run);
      && k in Lagging(s) && Due(s.db.orders[k], s.now)
      && Valid(s, more) && FreshRun(s, more) && OnlyClaimed(s, more, k)
      && Batches(more, k) >= |Ahead(s.db.orders, k)| / BATCH + 1
    ensures prefix <= more && Valid(Run(Start(config, now), run), prefix)
    ensures var u := Run(Run(Start(config, now), run), prefix);
      Holds(u, k) && k in Lagging(u) && WillFinish(u, k)
  {
    var s := Run(Start(config, now), run);
    FreshFromStart(config, now, run);
    NoStarvation(s, more, k);
    prefix := ClaimMoment(s, more, k);
    ProgressingFinishes(Run(s, prefix), k);
  }

  // ---- Lagging for ever --------------------------------------------------------------------------

  /** A Get or Cancel is about to write the order, or a webhook to record it. */
  predicate Touches(a: Action, k: PaymentKey) {
    match a
    case GetWrite(p) => p.GetAnswered? && p.payment.key == k
    case CancelWrite(p) => p.CancelClosed? && p.payment.key == k
    case HookRecord(p) => p.HookRecording? && p.event.key == k
    case _ => false
  }

  /** An unfinished order whose provider has finished and whose poll event is recorded already. */
  ghost predicate Stranded(s: World, k: PaymentKey) {
    k in Lagging(s) && InboundKey(k.connection, PollId(s.config.sha, k, s.provider[k].current)) in s.db.inbound
  }

  lemma FoldedPollId(sha: Hash, k: PaymentKey, raw: string, raw': string)
    requires EqualFold(raw, raw')
    ensures PollId(sha, k, raw) == PollId(sha, k, raw')
  {
  }

  lemma PollOfStrandedIsRecorded(s: World, e: Event, k: PaymentKey)
    requires Sound(s) && Stranded(s, k) && EventOk(s, e) && e.source == Poll && e.key == k
    ensures EventRecorded(s.db, e)
  {
    assert LedgerOk(s.provider[k]);
    FoldedPollId(s.config.sha, k, e.raw, s.provider[k].current);
  }

  lemma ProviderStaysFinal(s: World, a: Action, k: PaymentKey)
    requires Enabled(s, a) && k in s.provider && Final(s.provider[k].current)
    ensures k in ProviderAfter(s, a) && EqualFold(s.provider[k].current, ProviderAfter(s, a)[k].current)
    ensures Final(ProviderAfter(s, a)[k].current)
  {
    FinalFolds(s.provider[k].current, ProviderAfter(s, a)[k].current);
  }

  lemma EventsComeFrom(s: World, a: Action)
    requires Sound(s) && Enabled(s, a) && StatementOf(s, a).RecordProviderEvent?
    ensures var e := StatementOf(s, a).event; EventOk(s, e) && (e.source == Poll || Touches(a, e.key))
  {
    SubjectRuns(s, a);
    assert ProcessOk(s, Subject(a).value);
  }

  /** Without such a step the row is not written, or written with an unfinished status. */
  lemma StrandedRowStaysOpen(s: World, a: Action, k: PaymentKey)
    requires Sound(s) && Enabled(s, a) && Stranded(s, k) && !Touches(a, k)
    ensures ChangeBy(s, a, k).Rewrite? ==> Open(ChangeBy(s, a, k).status)
  {
    if ChangeBy(s, a, k).Rewrite? {
      RewritesBy(s.db, StatementOf(s, a), k);
      if StatementOf(s, a).Write? {
        DirectWriter(s, a, k);
      } else {
        EventsComeFrom(s, a);
        PollOfStrandedIsRecorded(s, StatementOf(s, a).event, k);
      }
    }
  }

  lemma InboxGrows(s: World, a: Action, i: InboundKey)
    requires Enabled(s, a) && i in s.db.inbound
    ensures i in Apply(s, a).db.inbound
  {
    BoxesChange(s.db, s.now, StatementOf(s, a));
  }

  lemma OpenRowStays(s: World, a: Action, k: PaymentKey)
    requires Enabled(s, a) && k in s.db.orders && Open(s.db.orders[k].status)
    requires ChangeBy(s, a, k).Rewrite? ==> Open(ChangeBy(s, a, k).status)
    ensures k in Apply(s, a).db.orders && Open(Apply(s, a).db.orders[k].status)
  {
    StepChangesRow(s, a, k);
  }

  lemma StepStrands(s: World, a: Action, k: PaymentKey)
    requires Sound(s) && Enabled(s, a) && Stranded(s, k) && !Touches(a, k)
    ensures Stranded(Apply(s, a), k)
  {
    StrandedRowStaysOpen(s, a, k);
    OpenRowStays(s, a, k);
    ProviderStaysFinal(s, a, k);
    var raw, raw' := s.provider[k].current, ProviderAfter(s, a)[k].current;
    FoldedPollId(s.config.sha, k, raw, raw');
    InboxGrows(s, a, InboundKey(k.connection, PollId(s.config.sha, k, raw)));
  }

  predicate Untouched(run: seq<Action>, k: PaymentKey) {
    run == [] || (!Touches(run[0], k) && Untouched(run[1..], k))
  }

  lemma {:induction false} RunStrands(s: World, run: seq<Action>, k: PaymentKey)
    requires Sound(s) && Valid(s, run) && Stranded(s, k) && Untouched(run, k)
    ensures Stranded(Run(s, run), k)
    decreases |run|
  {
    if run != [] {
      StepStrands(s, run[0], k);
      StepSound(s, run[0]);
      RunStrands(Apply(s, run[0]), run[1..], k);
    }
  }

  /** However often it is polled, a stranded order stays open until a Get, Cancel or webhook writes it. */
  lemma StrandedForEver(s: World, run: seq<Action>, k: PaymentKey)
    requires Reachable(s) && Stranded(s, k) && Valid(s, run) && Untouched(run, k)
    ensures k in Run(s, run).db.orders && Open(Run(s, run).db.orders[k].status) && Stranded(Run(s, run), k)
  {
    ReachableSound(s);
    RunStrands(s, run, k);
  }
}
