/**
 Who wrote an order's status last, and which finished orders lack an outbox event: Get and Cancel
 store statuses without one.
 */
module Announcements {
  import opened Basics
  import opened Model
  import opened Statuses
  import opened Tables
  import opened Statements
  import opened Decisions
  import opened Protocol
  import opened Agreement
  import opened Schedule

  // ---- Last writers ------------------------------------------------------------------------

  /** What the last writer of an order's status says about the row and the outbox. */
  ghost predicate WriterOk(s: World, k: PaymentKey) {
    && k in s.db.orders && k in s.trace.writers
    && var o := s.db.orders[k];
       match s.trace.writers[k]
       case ByCreate => Open(o.status)
       case ByObservation => Open(o.status)
       case ByEvent(id) =>
         id in s.db.outbox && IsEventFor(s.db.outbox[id].event, k, o.status, o.raw)
       case _ => true
  }

  ghost predicate WritersOk(s: World) {
    forall k :: k in s.db.orders ==> WriterOk(s, k)
  }

  /** The trace names a writer for exactly the rows whose status a statement writes. */
  lemma WritersFollow(s: World, a: Action, k: PaymentKey)
    requires Enabled(s, a) && k in s.db.orders
    ensures ChangeBy(s, a, k).Rewrite? <==> WriteBy(s, a).Some? && WriteBy(s, a).value.0 == k
  {
  }

  lemma RecordedEventKeepsWriter(s: World, a: Action, k: PaymentKey)
    requires Enabled(s, a) && k in s.db.orders && Emits(s.db, StatementOf(s, a)) && StatementOf(s, a).event.key == k
    ensures WriterOk(Apply(s, a), k)
  {
    var q := StatementOf(s, a);
    WritersFollow(s, a, k);
    StepChangesRow(s, a, k);
    BoxesChange(s.db, s.now, q);
    OutboxChanges(s.db, s.now, q, q.event.id);
  }

  lemma DirectWriteKeepsWriter(s: World, a: Action, k: PaymentKey)
    requires Sound(s) && Enabled(s, a) && k in s.db.orders && StatementOf(s, a).Write? && StatementOf(s, a).key == k
    ensures WriterOk(Apply(s, a), k)
  {
    DirectWriter(s, a, k);
    StepChangesRow(s, a, k);
  }

  /** Direct writes come from Get, Cancel, or an observation, which stores an unfinished status. */
  lemma DirectWriter(s: World, a: Action, k: PaymentKey)
    requires Sound(s) && Enabled(s, a) && StatementOf(s, a).Write? && StatementOf(s, a).key == k
    ensures WriteBy(s, a).Some? && WriteBy(s, a).value.0 == k
    ensures match WriteBy(s, a).value.1
            case ByObservation => Open(StatementOf(s, a).status)
            case ByGet => true
            case ByCancel => true
            case _ => false
  {
    if a.PollObserve? {
      assert ProcessOk(s, a.process);
    }
  }

  lemma RewritesBy(db: Db, q: Statement, k: PaymentKey)
    requires ChangeOf(db, q, k).Rewrite?
    ensures if Emits(db, q) then q.event.key == k else q.Write? && q.key == k
  {
  }

  lemma RewriteKeepsWriter(s: World, a: Action, k: PaymentKey)
    requires Sound(s) && Enabled(s, a) && k in s.db.orders && ChangeBy(s, a, k).Rewrite?
    ensures WriterOk(Apply(s, a), k)
  {
    RewritesBy(s.db, StatementOf(s, a), k);
    if Emits(s.db, StatementOf(s, a)) {
      RecordedEventKeepsWriter(s, a, k);
    } else {
      DirectWriteKeepsWriter(s, a, k);
    }
  }

  lemma QuietStepKeepsWriter(s: World, a: Action, k: PaymentKey)
    requires Enabled(s, a) && WriterOk(s, k) && !ChangeBy(s, a, k).Rewrite?
    ensures WriterOk(Apply(s, a), k)
  {
    WritersFollow(s, a, k);
    StepChangesRow(s, a, k);
    if s.trace.writers[k].ByEvent? {
      var id := s.trace.writers[k].id;
      EventsStay(s.db, s.now, StatementOf(s, a), id);
    }
  }

  lemma NewRowHasWriter(s: World, a: Action, k: PaymentKey)
    requires Sound(s) && Enabled(s, a) && k in Apply(s, a).db.orders && k !in s.db.orders
    ensures WriterOk(Apply(s, a), k)
  {
    RowsChange(s.db, s.now, StatementOf(s, a));
    SubjectRuns(s, a);
    assert a.CreateComplete?;
  }

  lemma StepKeepsWriters(s: World, a: Action)
    requires Sound(s) && WritersOk(s) && Enabled(s, a)
    ensures WritersOk(Apply(s, a))
  {
    forall k | k in Apply(s, a).db.orders ensures WriterOk(Apply(s, a), k) {
      if k !in s.db.orders {
        NewRowHasWriter(s, a, k);
      } else if ChangeBy(s, a, k).Rewrite? {
        RewriteKeepsWriter(s, a, k);
      } else {
        QuietStepKeepsWriter(s, a, k);
      }
    }
  }

  lemma {:induction false} RunKeepsWriters(s: World, run: seq<Action>)
    requires Sound(s) && WritersOk(s) && Valid(s, run)
    ensures WritersOk(Run(s, run))
    decreases |run|
  {
    if run != [] {
      StepSound(s, run[0]);
      StepKeepsWriters(s, run[0]);
      RunKeepsWriters(Apply(s, run[0]), run[1..]);
    }
  }

  /** Every statement that writes an order's status is remembered, by its path. */
  lemma WritersRecorded(s: World, a: Action)
    requires Enabled(s, a)
    ensures var was, writers := s.trace.writers, TraceAfter(s, a).writers;
      match a
      case CreateComplete(p) => writers == was || writers == was[p.payment.key := ByCreate]
      case GetWrite(p) => writers == was[p.payment.key := ByGet]
      case CancelWrite(p) => writers == was[p.payment.key := ByCancel]
      case PollObserve(p) => writers == was[p.payment.key := ByObservation]
      case PollRecord(p) =>
        writers == if CanRecord(s.db, p.event) then was[p.event.key := ByEvent(p.event.id)] else was
      case HookRecord(p) =>
        writers == if CanRecord(s.db, p.event) then was[p.event.key := ByEvent(p.event.id)] else was
      case PollRecordFails(p, applied, _) =>
        writers == if applied && CanRecord(s.db, p.event) then was[p.event.key := ByEvent(p.event.id)] else was
      case _ => writers == was
  {
  }

  /**
   If a provider event was the last to write a finished order's status, the outbox holds that
   event with the order's status and raw status; so a finished order without such an event was
   last written by Get or Cancel.
   */
  lemma OutboxCompleteByLastWriter(s: World, k: PaymentKey)
    requires Reachable(s) && k in s.db.orders && !Open(s.db.orders[k].status)
    ensures k in s.trace.writers
    ensures s.trace.writers[k].ByEvent? ==> HasEvent(s, k)
    ensures !HasEvent(s, k) ==> s.trace.writers[k].ByGet? || s.trace.writers[k].ByCancel?
  {
    var config, now, run :| Valid(Start(config, now), run) && Run(Start(config, now), run) == s;
    StartSound(config, now);
    RunKeepsWriters(Start(config, now), run);
    assert WriterOk(s, k);
  }

  /** The outbox holds an event of an order with this status and raw status. */
  ghost predicate EventFor(s: World, k: PaymentKey, status: Status, raw: string) {
    exists id :: id in s.db.outbox && IsEventFor(s.db.outbox[id].event, k, status, raw)
  }

  predicate IsEventFor(e: Event, k: PaymentKey, status: Status, raw: string) {
    e.key == k && e.status == status && e.raw == raw
  }

  ghost predicate HasEvent(s: World, k: PaymentKey)
    requires k in s.db.orders
  {
    EventFor(s, k, s.db.orders[k].status, s.db.orders[k].raw)
  }

  /** A finished order has its event. */
  ghost predicate Announced(s: World, k: PaymentKey) {
    k in s.db.orders && !Open(s.db.orders[k].status) ==> HasEvent(s, k)
  }

  /** Get or Cancel is about to store a finished status that the outbox holds no event with. */
  ghost predicate Silences(s: World, a: Action, k: PaymentKey) {
    match a
    case GetWrite(p) =>
      && p.GetAnswered? && p.payment.key == k && Final(p.raw)
      && !EventFor(s, k, NormalizeStatus(p.raw), p.raw)
    case CancelWrite(p) =>
      p.CancelClosed? && p.payment.key == k && !EventFor(s, k, Cancelled, "PAY_CLOSED")
    case _ => false
  }

  lemma EventsStay(db: Db, now: Time, q: Statement, id: string)
    requires id in db.outbox
    ensures id in Execute(db, now, q).outbox && Execute(db, now, q).outbox[id].event == db.outbox[id].event
  {
    BoxesChange(db, now, q);
    OutboxChanges(db, now, q, id);
  }

  /** Events stay for ever, and only a recorded one is new. */
  lemma EventsFor(s: World, a: Action, k: PaymentKey, status: Status, raw: string)
    requires Enabled(s, a)
    ensures EventFor(s, k, status, raw) ==> EventFor(Apply(s, a), k, status, raw)
    ensures !Emits(s.db, StatementOf(s, a)) && EventFor(Apply(s, a), k, status, raw) ==> EventFor(s, k, status, raw)
  {
    var t, q := Apply(s, a), StatementOf(s, a);
    if id :| id in s.db.outbox && IsEventFor(s.db.outbox[id].event, k, status, raw) {
      EventsStay(s.db, s.now, q, id);
      assert IsEventFor(t.db.outbox[id].event, k, status, raw);
    }
    if id :| id in t.db.outbox && IsEventFor(t.db.outbox[id].event, k, status, raw) {
      OutboxChanges(s.db, s.now, q, id);
      assert id in s.db.outbox ==> IsEventFor(s.db.outbox[id].event, k, status, raw);
    }
  }

  lemma RecordedIsAnnounced(s: World, a: Action, k: PaymentKey)
    requires Enabled(s, a) && k in s.db.orders && Emits(s.db, StatementOf(s, a)) && StatementOf(s, a).event.key == k
    ensures Announced(Apply(s, a), k)
  {
    var t, q := Apply(s, a), StatementOf(s, a);
    StepChangesRow(s, a, k);
    BoxesChange(s.db, s.now, q);
    OutboxChanges(s.db, s.now, q, q.event.id);
    assert IsEventFor(t.db.outbox[q.event.id].event, k, q.event.status, q.event.raw);
  }

  lemma WrittenRow(s: World, a: Action, k: PaymentKey)
    requires Enabled(s, a) && k in s.db.orders && StatementOf(s, a).Write? && StatementOf(s, a).key == k
    ensures var t, q := Apply(s, a), StatementOf(s, a);
      k in t.db.orders && t.db.orders[k].status == q.status && t.db.orders[k].raw == q.raw
  {
    StepChangesRow(s, a, k);
  }

  /** A direct write silences exactly when its status is finished and no event was recorded with it. */
  lemma WriteSilences(s: World, a: Action, k: PaymentKey)
    requires Sound(s) && Enabled(s, a) && StatementOf(s, a).Write? && StatementOf(s, a).key == k
    ensures var q := StatementOf(s, a); Silences(s, a, k) <==> !Open(q.status) && !EventFor(s, k, q.status, q.raw)
  {
    DirectWriter(s, a, k);
    NormalForms();
  }

  lemma WrittenSilently(s: World, a: Action, k: PaymentKey)
    requires Sound(s) && Enabled(s, a) && k in s.db.orders && StatementOf(s, a).Write? && StatementOf(s, a).key == k
    ensures !Announced(Apply(s, a), k) <==> Silences(s, a, k)
  {
    var q := StatementOf(s, a);
    WrittenRow(s, a, k);
    WriteSilences(s, a, k);
    EventsFor(s, a, k, q.status, q.raw);
  }

  lemma OthersStayAnnounced(s: World, a: Action, k: PaymentKey)
    requires Enabled(s, a) && k in s.db.orders && Announced(s, k) && !ChangeBy(s, a, k).Rewrite?
    ensures Announced(Apply(s, a), k)
  {
    StepChangesRow(s, a, k);
    EventsFor(s, a, k, s.db.orders[k].status, s.db.orders[k].raw);
  }

  lemma NewOrderIsAnnounced(s: World, a: Action, k: PaymentKey)
    requires Sound(s) && Enabled(s, a) && k !in s.db.orders
    ensures Announced(Apply(s, a), k)
  {
    if k in Apply(s, a).db.orders {
      RowAppears(s.db, s.now, StatementOf(s, a), k);
      SubjectRuns(s, a);
      StatementJustified(s, a);
    }
  }

  lemma SilencesRewrite(s: World, a: Action, k: PaymentKey)
    requires Enabled(s, a) && Silences(s, a, k)
    ensures StatementOf(s, a).Write? && StatementOf(s, a).key == k
  {
  }

  /**
   How a finished order comes to lack its event: exactly by a Get or Cancel that stores a
   finished status no event was recorded with.
   */
  lemma SilencedExactly(s: World, a: Action, k: PaymentKey)
    requires Reachable(s) && Enabled(s, a) && Announced(s, k)
    ensures !Announced(Apply(s, a), k) <==> k in s.db.orders && Silences(s, a, k)
  {
    ReachableSound(s);
    StepSilences(s, a, k);
  }

  lemma StepSilences(s: World, a: Action, k: PaymentKey)
    requires Sound(s) && Enabled(s, a) && Announced(s, k)
    ensures !Announced(Apply(s, a), k) <==> k in s.db.orders && Silences(s, a, k)
  {
    if k !in s.db.orders {
      NewOrderIsAnnounced(s, a, k);
    } else if ChangeBy(s, a, k).Rewrite? {
      RewriteSilences(s, a, k);
    } else {
      OthersStayAnnounced(s, a, k);
      if Silences(s, a, k) {
        SilencesRewrite(s, a, k);
      }
    }
  }

  lemma RewriteSilences(s: World, a: Action, k: PaymentKey)
    requires Sound(s) && Enabled(s, a) && k in s.db.orders && ChangeBy(s, a, k).Rewrite?
    ensures !Announced(Apply(s, a), k) <==> Silences(s, a, k)
  {
    RewritesBy(s.db, StatementOf(s, a), k);
    if StatementOf(s, a).Write? {
      WrittenSilently(s, a, k);
    } else {
      RecordedIsAnnounced(s, a, k);
    }
  }

  ghost predicate AllAnnounced(s: World) {
    forall k :: Announced(s, k)
  }

  /** In every state of the run, every finished order has its event. */
  ghost predicate AlwaysAnnounced(s: World, run: seq<Action>)
    requires Valid(s, run)
    decreases |run|
  {
    AllAnnounced(s) && (run == [] || AlwaysAnnounced(Apply(s, run[0]), run[1..]))
  }

  ghost predicate NeverSilenced(s: World, run: seq<Action>)
    requires Valid(s, run)
    decreases |run|
  {
    run == [] || (
      && (forall k :: k in s.db.orders ==> !Silences(s, run[0], k))
      && NeverSilenced(Apply(s, run[0]), run[1..]))
  }

  lemma StepAnnounced(s: World, a: Action)
    requires Sound(s) && Enabled(s, a) && AllAnnounced(s)
    ensures AllAnnounced(Apply(s, a)) <==> forall k :: k in s.db.orders ==> !Silences(s, a, k)
  {
    forall k ensures !Announced(Apply(s, a), k) <==> k in s.db.orders && Silences(s, a, k) {
      StepSilences(s, a, k);
    }
  }

  lemma {:induction false} RunAnnounced(s: World, run: seq<Action>)
    requires Sound(s) && AllAnnounced(s) && Valid(s, run)
    ensures AlwaysAnnounced(s, run) <==> NeverSilenced(s, run)
    decreases |run|
  {
    if run != [] {
      StepAnnounced(s, run[0]);
      StepSound(s, run[0]);
      if AllAnnounced(Apply(s, run[0])) {
        RunAnnounced(Apply(s, run[0]), run[1..]);
      } else {
        NotAnnounced(Apply(s, run[0]), run[1..]);
      }
    }
  }

  lemma NotAnnounced(s: World, run: seq<Action>)
    requires Valid(s, run) && !AllAnnounced(s)
    ensures !AlwaysAnnounced(s, run)
  {
  }

  /**
   Every finished order has its event throughout a run if and only if no Get or Cancel of the run
   stores a finished status that no event was recorded with.
   */
  lemma AnnouncedThroughoutExactly(config: Config, now: Time, run: seq<Action>)
    requires Valid(Start(config, now), run)
    ensures AlwaysAnnounced(Start(config, now), run) <==> NeverSilenced(Start(config, now), run)
  {
    StartSound(config, now);
    RunAnnounced(Start(config, now), run);
  }
}
