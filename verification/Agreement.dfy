/**
 What survives stale writes: every status the connector stores or emits was held by the order
 at the provider, every snapshot agrees with the immutable columns of its row, and so every
 final local status names the provider's final status.
 */
module Agreement {
  import opened Basics
  import opened Model
  import opened Statuses
  import opened Text
  import opened Tables
  import opened Statements
  import opened Decisions
  import opened EventIds
  import opened Protocol
  import Amounts

  // ---- What only grows --------------------------------------------------------------

  ghost predicate Grows(s: World, t: World) {
    && t.config == s.config
    && s.now <= t.now
    && (forall k :: k in s.db.orders ==> k in t.db.orders && t.db.orders[k].terms == s.db.orders[k].terms)
    && (forall k :: k in s.provider ==> k in t.provider && s.provider[k].past <= t.provider[k].past)
  }

  lemma HistoryGrows(s: World, a: Action)
    requires Enabled(s, a)
    ensures forall k :: k in s.provider ==>
        k in ProviderAfter(s, a) && s.provider[k].past <= ProviderAfter(s, a)[k].past
  {
  }

  lemma TermsKept(db: Db, now: Time, q: Statement)
    ensures forall k :: k in db.orders ==>
        k in Execute(db, now, q).orders && Execute(db, now, q).orders[k].terms == db.orders[k].terms
  {
    RowsChange(db, now, q);
  }

  lemma StepGrows(s: World, a: Action)
    requires Enabled(s, a)
    ensures Grows(s, Apply(s, a))
  {
    HistoryGrows(s, a);
    TermsKept(s.db, s.now, StatementOf(s, a));
  }

  // ---- The invariant ----------------------------------------------------------------

  /** A final status in an order's history is its current one. */
  ghost predicate LedgerOk(l: Ledger) {
    && l.current in l.past
    && forall raw :: raw in l.past && Final(raw) ==> EqualFold(raw, l.current)
  }

  ghost predicate OrderOk(s: World, k: PaymentKey, o: Order) {
    && k in s.provider && k.connection in s.config.connections
    && o.terms.reference == RemoveDashes(o.terms.transaction)
    && Fits(o.status, o.raw, o.terms.expiresAt, s.now)
    && (!Open(o.status) ==> Held(s.provider, k, o.raw))
  }

  /** A snapshot's key and immutable columns are those of a stored order. */
  ghost predicate SnapshotOk(s: World, p: Payment) {
    p.key in s.db.orders && s.db.orders[p.key].terms == p.terms
  }

  predicate Gated(e: Event) {
    match e.source
    case Poll => Final(e.raw)
    case Webhook => e.status != Pending || EqualFold(e.raw, "PAID")
  }

  /** The event repeats the immutable columns of one order and a status that order has had. */
  ghost predicate EventOk(s: World, e: Event) {
    && e.key in s.db.orders
    && (var t := s.db.orders[e.key].terms;
        && e.transaction == t.transaction && e.amount == t.amount && e.currency == t.currency
        && e.reference == t.reference == RemoveDashes(t.transaction)
        && Fits(e.status, e.raw, t.expiresAt, e.observedAt))
    && e.observedAt <= s.now
    && e.kind == "payment.provider_" + StatusText(e.status)
    && Held(s.provider, e.key, e.raw)
    && Gated(e)
    && e.id == (if e.source == Poll then PollId(s.config.sha, e.key, e.raw) else HookId(e.key.id, e.raw))
  }

  ghost predicate EvidenceOk(s: World, e: Event, v: Evidence) {
    e.key in s.db.orders && (v.amount == "" || Amounts.AmountsEqual(v.amount, s.db.orders[e.key].terms.amount))
  }

  ghost predicate ProcessOk(s: World, p: Process) {
    match p
    case CreateLooking(_, _) => true
    case CreateOwning(_, cmd) => cmd.connection in s.config.connections
    case CreateRefused(_, _) => true
    case CreateAccepted(_, payment) =>
      && payment.key in s.provider && payment.key.connection in s.config.connections
      && payment.status == Created && payment.raw == "INITIAL"
      && payment.terms.reference == RemoveDashes(payment.terms.transaction)
    case GetFound(payment) => SnapshotOk(s, payment)
    case GetAnswered(payment, raw) => SnapshotOk(s, payment) && Held(s.provider, payment.key, raw)
    case CancelFound(payment) => SnapshotOk(s, payment)
    case CancelClosed(payment) => SnapshotOk(s, payment) && Held(s.provider, payment.key, "PAY_CLOSED")
    case PollClaimed(payment) => SnapshotOk(s, payment)
    case PollAnswered(payment, answer) =>
      && SnapshotOk(s, payment)
      && (IdMatches(payment, answer.id) ==> Held(s.provider, payment.key, answer.raw))
    case PollObserved(payment) =>
      SnapshotOk(s, payment) && Open(payment.status) && payment.status == NormalizeStatus(payment.raw)
    case PollEmitting(event, evidence) => EventOk(s, event) && EvidenceOk(s, event, evidence) && event.source == Poll
    case PollRetrying(target, _) => target in s.db.orders
    case HookFound(payment, hook) =>
      && SnapshotOk(s, payment)
      && (IdMatches(payment, hook.id) ==> Held(s.provider, payment.key, hook.raw))
    case HookRecording(event, evidence) =>
      EventOk(s, event) && EvidenceOk(s, event, evidence) && event.source == Webhook
  }

  /** Projecting inbox rows to their event id is a bijection onto the outbox ids. */
  ghost predicate BoxesAgree(db: Db) {
    && (forall i :: i in db.inbound ==> i.event in db.outbox && InboundOf(db.outbox[i.event].event) == i)
    && (forall id :: id in db.outbox ==> db.outbox[id].event.id == id && InboundOf(db.outbox[id].event) in db.inbound)
  }

  /** An outbox event, with the evidence its inbox row holds. */
  ghost predicate OutboxRowOk(s: World, id: string) {
    && id in s.db.outbox
    && EventOk(s, s.db.outbox[id].event)
    && InboundOf(s.db.outbox[id].event) in s.db.inbound
    && EvidenceOk(s, s.db.outbox[id].event, s.db.inbound[InboundOf(s.db.outbox[id].event)])
  }

  ghost predicate OutboxOk(s: World) {
    forall id :: id in s.db.outbox ==> OutboxRowOk(s, id)
  }

  ghost predicate Sound(s: World) {
    && (forall k :: k in s.provider ==> LedgerOk(s.provider[k]))
    && (forall k :: k in s.db.orders ==> OrderOk(s, k, s.db.orders[k]))
    && (forall p :: p in s.processes ==> ProcessOk(s, p))
    && BoxesAgree(s.db)
    && OutboxOk(s)
  }

  lemma StartSound(config: Config, now: Time)
    ensures Sound(Start(config, now))
  {
  }

  // ---- Preservation -------------------------------------------------------------------

  lemma EventStable(s: World, t: World, e: Event)
    requires Grows(s, t) && EventOk(s, e)
    ensures EventOk(t, e)
  {
  }

  lemma ProcessStable(s: World, t: World, p: Process)
    requires Grows(s, t) && ProcessOk(s, p)
    ensures ProcessOk(t, p)
  {
  }

  /** What a statement may write: only held statuses that fit, and only events that check out. */
  ghost predicate StatementOk(s: World, q: Statement) {
    match q
    case Write(k, status, raw, _) =>
      && k in s.db.orders
      && status == NormalizeStatus(raw)
      && (!Open(status) ==> Held(s.provider, k, raw))
    case Complete(_, payment) => ProcessOk(s, CreateAccepted("", payment))
    case RecordProviderEvent(e, v) => EventOk(s, e) && EvidenceOk(s, e, v)
    case _ => true
  }

  lemma StatementJustified(s: World, a: Action)
    requires Enabled(s, a)
    requires Subject(a).Some? ==> ProcessOk(s, Subject(a).value)
    ensures StatementOk(s, StatementOf(s, a))
  {
    NormalForms();
  }

  lemma MoveKeepsLedger(l: Ledger, raw: string)
    requires LedgerOk(l) && MayMove(l, raw)
    ensures LedgerOk(Moved(l, raw))
  {
    Capitals();
    forall r | r in Moved(l, raw).past && Final(r) ensures EqualFold(r, raw) {
      if r in l.past {
        assert EqualFold(r, l.current);
      }
    }
  }

  lemma LedgersStep(s: World, a: Action)
    requires Enabled(s, a)
    requires forall k :: k in s.provider ==> LedgerOk(s.provider[k])
    ensures forall k :: k in ProviderAfter(s, a) ==> LedgerOk(ProviderAfter(s, a)[k])
  {
    match a {
      case ProviderMoves(k, raw) => MoveKeepsLedger(s.provider[k], raw);
      case CancelClose(p) => MoveKeepsLedger(s.provider[p.payment.key], "PAY_CLOSED");
      case _ =>
    }
  }

  lemma OrdersStep(s: World, t: World, q: Statement)
    requires Grows(s, t) && t.db == Execute(s.db, s.now, q) && StatementOk(s, q)
    requires forall k :: k in s.db.orders ==> OrderOk(s, k, s.db.orders[k])
    ensures forall k :: k in t.db.orders ==> OrderOk(t, k, t.db.orders[k])
  {
    forall k | k in t.db.orders ensures OrderOk(t, k, t.db.orders[k]) {
      if k in s.db.orders {
        RowChanges(s.db, s.now, q, k);
        if ChangeOf(s.db, q, k).Rewrite? {
          RewriteOk(s, t, q, k);
        }
      } else {
        RowAppears(s.db, s.now, q, k);
        NormalForms();
      }
    }
  }

  lemma RewriteOk(s: World, t: World, q: Statement, k: PaymentKey)
    requires Grows(s, t) && StatementOk(s, q) && k in s.db.orders && OrderOk(s, k, s.db.orders[k])
    requires ChangeOf(s.db, q, k).Rewrite?
    ensures OrderOk(t, k, Changed(s.db.orders[k], s.now, ChangeOf(s.db, q, k)))
  {
    if q.RecordProviderEvent? {
      FitsKeepsFinality(q.event.status, q.event.raw, s.db.orders[k].terms.expiresAt, q.event.observedAt);
    }
  }

  lemma BoxesStep(db: Db, now: Time, q: Statement)
    requires BoxesAgree(db)
    ensures BoxesAgree(Execute(db, now, q))
  {
    var t := Execute(db, now, q);
    BoxesChange(db, now, q);
    forall id | id in t.outbox ensures t.outbox[id].event.id == id && InboundOf(t.outbox[id].event) in t.inbound {
      OutboxChanges(db, now, q, id);
    }
    forall i | i in t.inbound ensures i.event in t.outbox && InboundOf(t.outbox[i.event].event) == i {
      if i in db.inbound {
        OutboxChanges(db, now, q, i.event);
      } else {
        OutboxChanges(db, now, q, q.event.id);
      }
    }
  }

  lemma OutboxRowStep(s: World, t: World, q: Statement, id: string)
    requires Grows(s, t) && t.db == Execute(s.db, s.now, q) && StatementOk(s, q)
    requires BoxesAgree(s.db) && id in t.db.outbox
    requires id in s.db.outbox ==> OutboxRowOk(s, id)
    ensures OutboxRowOk(t, id)
  {
    BoxesChange(s.db, s.now, q);
    OutboxChanges(s.db, s.now, q, id);
    var e := t.db.outbox[id].event;
    EventStable(s, t, e);
    if id in s.db.outbox && Emits(s.db, q) {
      assert InboundOf(e).event != q.event.id;
    }
  }

  lemma OutboxStep(s: World, t: World, q: Statement)
    requires Grows(s, t) && t.db == Execute(s.db, s.now, q) && StatementOk(s, q)
    requires BoxesAgree(s.db) && OutboxOk(s)
    ensures OutboxOk(t)
  {
    forall id | id in t.db.outbox ensures OutboxRowOk(t, id) {
      if id in s.db.outbox {
        assert OutboxRowOk(s, id);
      }
      OutboxRowStep(s, t, q, id);
    }
  }

  lemma PollDecisionOk(s: World, p: Payment, a: Answer, at: Time, stamp: Time)
    requires ProcessOk(s, PollAnswered(p, a)) && at <= stamp <= s.now
    requires p.terms.reference == RemoveDashes(p.terms.transaction)
    ensures var d := DecidePoll(s.config.sha, p, a, at, stamp);
      && (d.Observe? ==> ProcessOk(s, PollObserved(d.payment)))
      && (d.Emit? ==> ProcessOk(s, PollEmitting(d.event, Evidence(a.amount))))
  {
    SettleFits(a.raw, p.terms.expiresAt, at, stamp);
    FitsKeepsFinality(Settle(a.raw, p.terms.expiresAt, at), a.raw, p.terms.expiresAt, stamp);
  }

  lemma HookDecisionOk(s: World, p: Payment, h: Hook, at: Time, stamp: Time)
    requires ProcessOk(s, HookFound(p, h)) && at <= stamp <= s.now
    requires p.terms.reference == RemoveDashes(p.terms.transaction)
    ensures var d := DecideHook(p, h, at, stamp);
      d.Record? ==> ProcessOk(s, HookRecording(d.event, Evidence(h.amount)))
  {
    SettleFits(h.raw, p.terms.expiresAt, at, stamp);
  }

  lemma SuccessorOk(s: World, t: World, a: Action)
    requires Enabled(s, a) && Grows(s, t) && t.provider == ProviderAfter(s, a)
    requires Subject(a).Some? ==> ProcessOk(s, Subject(a).value)
    requires forall k :: k in s.db.orders ==> OrderOk(s, k, s.db.orders[k])
    requires Successor(s, a).Some?
    ensures ProcessOk(t, Successor(s, a).value)
  {
    if a.PollDecide? {
      PollSuccessorOk(s, t, a);
    } else if a.HookDecide? {
      HookSuccessorOk(s, t, a);
    } else {
      OtherSuccessorOk(s, t, a);
    }
  }

  lemma PollSuccessorOk(s: World, t: World, a: Action)
    requires a.PollDecide? && Enabled(s, a) && Grows(s, t) && ProcessOk(s, a.process)
    requires forall k :: k in s.db.orders ==> OrderOk(s, k, s.db.orders[k])
    ensures Successor(s, a).Some? && ProcessOk(t, Successor(s, a).value)
  {
    PollDecisionOk(s, a.process.payment, a.process.answer, a.at, a.stamp);
    ProcessStable(s, t, Successor(s, a).value);
  }

  lemma HookSuccessorOk(s: World, t: World, a: Action)
    requires a.HookDecide? && Enabled(s, a) && Grows(s, t) && ProcessOk(s, a.process)
    requires forall k :: k in s.db.orders ==> OrderOk(s, k, s.db.orders[k])
    ensures Successor(s, a).Some? ==> ProcessOk(t, Successor(s, a).value)
  {
    HookDecisionOk(s, a.process.payment, a.process.hook, a.at, a.stamp);
    if Successor(s, a).Some? {
      ProcessStable(s, t, Successor(s, a).value);
    }
  }

  lemma OtherSuccessorOk(s: World, t: World, a: Action)
    requires Enabled(s, a) && Grows(s, t) && !a.PollDecide? && !a.HookDecide?
    requires Subject(a).Some? ==> ProcessOk(s, Subject(a).value)
    requires forall k :: k in s.db.orders ==> OrderOk(s, k, s.db.orders[k])
    requires t.provider == ProviderAfter(s, a) && Successor(s, a).Some?
    ensures ProcessOk(t, Successor(s, a).value)
  {
  }

  lemma ProcessesStep(s: World, a: Action)
    requires Enabled(s, a)
    requires forall k :: k in s.db.orders ==> OrderOk(s, k, s.db.orders[k])
    requires forall p :: p in s.processes ==> ProcessOk(s, p)
    ensures forall p :: p in Apply(s, a).processes ==> ProcessOk(Apply(s, a), p)
  {
    StepGrows(s, a);
    var t := Apply(s, a);
    SubjectRuns(s, a);
    forall p | p in t.processes ensures ProcessOk(t, p) {
      if p in s.processes {
        ProcessStable(s, t, p);
      } else {
        NewProcessOk(s, t, a, p);
      }
    }
  }

  lemma NewProcessOk(s: World, t: World, a: Action, p: Process)
    requires Enabled(s, a) && Grows(s, t) && t.provider == ProviderAfter(s, a) && p in NewProcesses(s, a)
    requires forall k :: k in s.db.orders ==> OrderOk(s, k, s.db.orders[k])
    requires Subject(a).Some? ==> ProcessOk(s, Subject(a).value)
    ensures ProcessOk(t, p)
  {
    if a.ClaimBatch? {
      SpawnedFromRows(s, a.keys, a.locked, p);
    } else {
      SuccessorOk(s, t, a);
    }
  }

  lemma SubjectRuns(s: World, a: Action)
    requires Enabled(s, a)
    ensures Subject(a).Some? ==> Subject(a).value in s.processes
  {
  }

  lemma SpawnedFromRows(s: World, keys: seq<PaymentKey>, locked: set<PaymentKey>, p: Process)
    requires Enabled(s, ClaimBatch(keys, locked)) && p in multiset(Spawned(Claim(s.db, s.now, keys), keys))
    ensures p.PollClaimed? && p.payment.key in s.db.orders && p.payment.terms == s.db.orders[p.payment.key].terms
  {
    assert p in Spawned(Claim(s.db, s.now, keys), keys);
  }

  lemma StepSound(s: World, a: Action)
    requires Sound(s) && Enabled(s, a)
    ensures Sound(Apply(s, a))
  {
    var t, q := Apply(s, a), StatementOf(s, a);
    StepGrows(s, a);
    SubjectRuns(s, a);
    StatementJustified(s, a);
    LedgersStep(s, a);
    OrdersStep(s, t, q);
    ProcessesStep(s, a);
    BoxesStep(s.db, s.now, q);
    OutboxStep(s, t, q);
  }

  lemma {:induction false} RunSound(s: World, run: seq<Action>)
    requires Sound(s) && Valid(s, run)
    ensures Sound(Run(s, run))
    decreases |run|
  {
    if run != [] {
      StepSound(s, run[0]);
      RunSound(Apply(s, run[0]), run[1..]);
    }
  }

  lemma ReachableSound(s: World)
    requires Reachable(s)
    ensures Sound(s)
  {
    var config, now, run :| Valid(Start(config, now), run) && Run(Start(config, now), run) == s;
    StartSound(config, now);
    RunSound(Start(config, now), run);
  }
}
