/** What the connector's clients may rely on, in every reachable state of every interleaving. */
module Outcomes {
  import opened Basics
  import opened Model
  import opened Statuses
  import opened Text
  import opened Tables
  import opened Statements
  import opened Decisions
  import opened EventIds
  import opened Protocol
  import opened Agreement
  import opened Schedule
  import Amounts

  // ---- Terminal agreement --------------------------------------------------------------

  /**
   Whatever stale answers and late webhooks were applied: a finished order's status names the
   provider's current status, or says expired of a closed order.
   */
  lemma TerminalAgreement(s: World, k: PaymentKey)
    requires Reachable(s) && k in s.db.orders && !Open(s.db.orders[k].status)
    ensures k in s.provider && EqualFold(s.db.orders[k].raw, s.provider[k].current)
    ensures var o, current := s.db.orders[k], s.provider[k].current;
      || o.status == NormalizeStatus(current)
      || (o.status == Expired && EqualFold(current, "PAY_CLOSED") && o.terms.expiresAt.Some? &&
          o.terms.expiresAt.value <= s.now)
  {
    ReachableSound(s);
    FinishedOrderCurrent(s, k);
    var o := s.db.orders[k];
    FitsFolds(o.status, o.raw, s.provider[k].current, o.terms.expiresAt, s.now);
  }

  lemma FinishedOrderCurrent(s: World, k: PaymentKey)
    requires Sound(s) && k in s.db.orders && !Open(s.db.orders[k].status)
    ensures k in s.provider && EqualFold(s.db.orders[k].raw, s.provider[k].current)
    ensures Fits(s.db.orders[k].status, s.db.orders[k].raw, s.db.orders[k].terms.expiresAt, s.now)
  {
    var o := s.db.orders[k];
    assert OrderOk(s, k, o) && LedgerOk(s.provider[k]);
    FitsKeepsFinality(o.status, o.raw, o.terms.expiresAt, s.now);
  }

  /** All final events of one order carry the provider's one final status. */
  lemma FinalEventsAgree(s: World, id: string)
    requires Reachable(s) && id in s.db.outbox && !Open(s.db.outbox[id].event.status)
    ensures var e := s.db.outbox[id].event;
      && e.key in s.provider && EqualFold(e.raw, s.provider[e.key].current)
      && (forall id' ::
            id' in s.db.outbox && s.db.outbox[id'].event.key == e.key && !Open(s.db.outbox[id'].event.status) ==>
            EqualFold(s.db.outbox[id'].event.raw, e.raw))
  {
    ReachableSound(s);
    FinalEventCurrent(s, id);
    var e := s.db.outbox[id].event;
    forall id' | id' in s.db.outbox && s.db.outbox[id'].event.key == e.key && !Open(s.db.outbox[id'].event.status)
      ensures EqualFold(s.db.outbox[id'].event.raw, e.raw)
    {
      FinalEventCurrent(s, id');
    }
  }

  lemma FinalEventCurrent(s: World, id: string)
    requires Sound(s) && id in s.db.outbox && !Open(s.db.outbox[id].event.status)
    ensures var e := s.db.outbox[id].event;
      e.key in s.provider && Final(e.raw) && EqualFold(e.raw, s.provider[e.key].current)
  {
    var e := s.db.outbox[id].event;
    assert OutboxRowOk(s, id) && LedgerOk(s.provider[e.key]);
    FitsKeepsFinality(e.status, e.raw, s.db.orders[e.key].terms.expiresAt, e.observedAt);
  }

  /**
   Finished statuses are not absorbing, and this is exactly how one is lost: the step writes a
   raw status that is no longer the provider's.
   */
  lemma RegressesExactly(s: World, a: Action, k: PaymentKey)
    requires Reachable(s) && Enabled(s, a) && k in s.db.orders && !Open(s.db.orders[k].status)
    ensures k in Apply(s, a).db.orders && k in s.provider
    ensures Open(Apply(s, a).db.orders[k].status) <==>
              ChangeBy(s, a, k).Rewrite? && !EqualFold(ChangeBy(s, a, k).raw, s.provider[k].current)
  {
    ReachableSound(s);
    StepChangesRow(s, a, k);
    FinishedOrderCurrent(s, k);
    if ChangeBy(s, a, k).Rewrite? {
      RewriteOpensExactly(s, a, k);
    }
  }

  lemma RewriteOpensExactly(s: World, a: Action, k: PaymentKey)
    requires Sound(s) && Enabled(s, a) && k in s.db.orders && !Open(s.db.orders[k].status)
    requires ChangeBy(s, a, k).Rewrite?
    ensures k in s.provider
    ensures Open(ChangeBy(s, a, k).status) <==> !EqualFold(ChangeBy(s, a, k).raw, s.provider[k].current)
  {
    RewriteFits(s, a, k);
    StaleOrFinal(s, a, k);
  }

  /** Of an order the provider has finished, a rewrite is final exactly when it is not stale. */
  lemma StaleOrFinal(s: World, a: Action, k: PaymentKey)
    requires Sound(s) && Enabled(s, a) && k in s.db.orders && !Open(s.db.orders[k].status)
    requires ChangeBy(s, a, k).Rewrite?
    ensures k in s.provider
    ensures Final(ChangeBy(s, a, k).raw) <==> EqualFold(ChangeBy(s, a, k).raw, s.provider[k].current)
  {
    FinishedOrderCurrent(s, k);
    var o, raw := s.db.orders[k], ChangeBy(s, a, k).raw;
    FitsKeepsFinality(o.status, o.raw, o.terms.expiresAt, s.now);
    FinalFolds(o.raw, s.provider[k].current);
    if Final(raw) {
      RewriteIsHeld(s, a, k);
      assert LedgerOk(s.provider[k]);
    } else if EqualFold(raw, s.provider[k].current) {
      FinalFolds(raw, s.provider[k].current);
    }
  }

  /** A final raw status is written only if the order has had it. */
  lemma RewriteIsHeld(s: World, a: Action, k: PaymentKey)
    requires Sound(s) && Enabled(s, a) && k in s.db.orders
    requires ChangeBy(s, a, k).Rewrite? && Final(ChangeBy(s, a, k).raw)
    ensures Held(s.provider, k, ChangeBy(s, a, k).raw)
  {
    SubjectRuns(s, a);
    StatementJustified(s, a);
    RewriteFits(s, a, k);
  }

  /** A rewrite's status is final exactly when its raw status is. */
  lemma RewriteFits(s: World, a: Action, k: PaymentKey)
    requires Sound(s) && Enabled(s, a) && k in s.db.orders && ChangeBy(s, a, k).Rewrite?
    ensures Open(ChangeBy(s, a, k).status) <==> !Final(ChangeBy(s, a, k).raw)
  {
    SubjectRuns(s, a);
    StatementJustified(s, a);
    var q := StatementOf(s, a);
    if q.RecordProviderEvent? {
      FitsKeepsFinality(q.event.status, q.event.raw, s.db.orders[q.event.key].terms.expiresAt, q.event.observedAt);
    }
  }

  // ---- Events ----------------------------------------------------------------------------

  /**
   Every outbox event repeats the immutable columns of one order, whose reference is its
   transaction id without dashes; its type names its status; and its status is its normalized
   raw status, or expired for a closed order observed at or after its expiry.
   */
  lemma EventIntegrity(s: World, id: string)
    requires Reachable(s) && id in s.db.outbox
    ensures var e := s.db.outbox[id].event;
      && e.id == id && e.key in s.db.orders
      && (var t := s.db.orders[e.key].terms;
          && e.transaction == t.transaction && e.amount == t.amount && e.currency == t.currency &&
              e.reference == t.reference
          && t.reference == RemoveDashes(t.transaction)
          && (|| e.status == NormalizeStatus(e.raw)
              || (e.status == Expired && EqualFold(e.raw, "PAY_CLOSED") && t.expiresAt.Some? &&
                  t.expiresAt.value <= e.observedAt)))
      && e.observedAt <= s.now
      && (forall status :: e.kind == "payment.provider_" + StatusText(status) <==> status == e.status)
  {
    ReachableSound(s);
    assert OutboxRowOk(s, id);
    var e := s.db.outbox[id].event;
    forall status ensures e.kind == "payment.provider_" + StatusText(status) <==> status == e.status {
      if e.kind == "payment.provider_" + StatusText(status) {
        StatusTextInjective(status, e.status);
      }
    }
  }

  /** Any two amounts reported with recorded events of one order are the same rational. */
  lemma ReportedAmountsAgree(s: World, i: InboundKey, j: InboundKey)
    requires Reachable(s) && i in s.db.inbound && j in s.db.inbound
    requires s.db.inbound[i].amount != "" && s.db.inbound[j].amount != ""
    ensures i.event in s.db.outbox && j.event in s.db.outbox
    ensures s.db.outbox[i.event].event.key == s.db.outbox[j.event].event.key ==>
              Amounts.AmountsEqual(s.db.inbound[i].amount, s.db.inbound[j].amount)
  {
    ReachableSound(s);
    assert OutboxRowOk(s, i.event) && OutboxRowOk(s, j.event);
    var amount := s.db.orders[s.db.outbox[i.event].event.key].terms.amount;
    Amounts.PartialEquivalence(s.db.inbound[j].amount, amount, amount);
    Amounts.PartialEquivalence(s.db.inbound[i].amount, amount, s.db.inbound[j].amount);
  }

  /** Event ids of inbox rows are distinct, even across connections, and are exactly the outbox ids. */
  lemma InboxMatchesOutbox(s: World)
    requires Reachable(s)
    ensures forall i, j :: i in s.db.inbound && j in s.db.inbound && i.event == j.event ==> i == j
    ensures (set i | i in s.db.inbound :: i.event) == s.db.outbox.Keys
    ensures |s.db.inbound| == |s.db.outbox|
  {
    ReachableSound(s);
    forall id | id in s.db.outbox ensures id in (set i | i in s.db.inbound :: i.event) {
      assert InboundOf(s.db.outbox[id].event) in s.db.inbound;
    }
    ImageCardinality(s.db.inbound.Keys, s.db.outbox.Keys);
    assert |s.db.inbound.Keys| == |s.db.inbound| && |s.db.outbox.Keys| == |s.db.outbox|;
  }

  lemma {:induction false} ImageCardinality(keys: set<InboundKey>, ids: set<string>)
    requires forall i, j :: i in keys && j in keys && i.event == j.event ==> i == j
    requires ids == set i | i in keys :: i.event
    ensures |keys| == |ids|
    decreases |keys|
  {
    if keys != {} {
      var i :| i in keys;
      assert ids - {i.event} == set j | j in keys - {i} :: j.event;
      ImageCardinality(keys - {i}, ids - {i.event});
    }
  }

  /** The eight ids an order's events can have. */
  function HookIds(k: PaymentKey): set<string> {
    {HookId(k.id, "INITIAL"), HookId(k.id, "PAID"), HookId(k.id, "PAY_SUCCESS"), HookId(k.id, "PAY_CLOSED"),
        HookId(k.id, "PAY_FAIL")}
  }

  function PollIds(sha: Hash, k: PaymentKey): set<string> {
    {PollId(sha, k, "PAY_SUCCESS"), PollId(sha, k, "PAY_CLOSED"), PollId(sha, k, "PAY_FAIL")}
  }

  lemma HookIdOneOfFive(k: PaymentKey, e: Event, expiresAt: Option<Time>)
    requires e.source == Webhook && Gated(e) && Fits(e.status, e.raw, expiresAt, e.observedAt)
    ensures HookId(k.id, e.raw) in HookIds(k)
  {
    Capitals();
    FoldsAgree(e.raw, "INITIAL");
    FoldsAgree(e.raw, "PAID");
    FoldsAgree(e.raw, "PAY_SUCCESS");
    FoldsAgree(e.raw, "PAY_CLOSED");
    FoldsAgree(e.raw, "PAY_FAIL");
  }

  lemma PollIdOneOfThree(sha: Hash, k: PaymentKey, raw: string)
    requires Final(raw)
    ensures PollId(sha, k, raw) in PollIds(sha, k)
  {
    Capitals();
  }

  function EventsOf(s: World, k: PaymentKey, source: Source): set<string> {
    set id | id in s.db.outbox && s.db.outbox[id].event.key == k && s.db.outbox[id].event.source == source
  }

  lemma HookEventsBounded(s: World, k: PaymentKey)
    requires Sound(s)
    ensures EventsOf(s, k, Webhook) <= HookIds(k)
  {
    forall id | id in EventsOf(s, k, Webhook) ensures id in HookIds(k) {
      assert OutboxRowOk(s, id);
      HookIdOneOfFive(k, s.db.outbox[id].event, s.db.orders[k].terms.expiresAt);
    }
  }

  lemma PollEventsBounded(s: World, k: PaymentKey)
    requires Sound(s)
    ensures EventsOf(s, k, Poll) <= PollIds(s.config.sha, k)
  {
    forall id | id in EventsOf(s, k, Poll) ensures id in PollIds(s.config.sha, k) {
      assert OutboxRowOk(s, id);
      PollIdOneOfThree(s.config.sha, k, s.db.outbox[id].event.raw);
    }
  }

  lemma AtMostFive<T>(a: T, b: T, c: T, d: T, e: T)
    ensures |{a, b, c, d, e}| <= 5 && |{a, b, c}| <= 3
  {
    assert {a, b, c, d, e} == {a, b, c, d} + {e};
    assert {a, b, c, d} == {a, b, c} + {d};
  }

  /**
   Over any number of redeliveries and polls an order yields at most five webhook events and
   at most three poll events.
   */
  lemma AtMostEightEvents(s: World, k: PaymentKey)
    requires Reachable(s)
    ensures |EventsOf(s, k, Webhook)| <= 5 && |EventsOf(s, k, Poll)| <= 3
  {
    ReachableSound(s);
    HookEventsBounded(s, k);
    PollEventsBounded(s, k);
    SubsetCardinality(EventsOf(s, k, Webhook), HookIds(k));
    SubsetCardinality(EventsOf(s, k, Poll), PollIds(s.config.sha, k));
    AtMostFive(HookId(k.id, "INITIAL"), HookId(k.id, "PAID"), HookId(k.id, "PAY_SUCCESS"), HookId(k.id, "PAY_CLOSED"),
        HookId(k.id, "PAY_FAIL"));
    var sha := s.config.sha;
    AtMostFive(PollId(sha, k, "PAY_SUCCESS"), PollId(sha, k, "PAY_CLOSED"), PollId(sha, k, "PAY_FAIL"), "", "");
  }
}
