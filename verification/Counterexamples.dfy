/**
 Runs that refute three tempting claims: that finished statuses are absorbing, that every
 finished order has an outbox event, and that reconciling an order the provider has finished
 always finishes it.
 */
module Counterexamples {
  import opened Basics
  import opened Model
  import opened Statuses
  import opened Text
  import opened Tables
  import opened Statements
  import opened Decisions
  import opened EventIds
  import opened Protocol
  import opened Progress
  import opened Reachability

  /** A set of worlds that no step leaves. */
  ghost predicate Closed(r: World -> bool) {
    forall s, a :: r(s) && Enabled(s, a) ==> r(Apply(s, a))
  }

  lemma StepStays(r: World -> bool, s: World, a: Action)
    requires Closed(r) && r(s) && Enabled(s, a)
    ensures r(Apply(s, a))
  {
  }

  /** The reachable worlds are a closed set with every start. */
  lemma ReachableIsClosed(config: Config)
    ensures Closed((s: World) => Reachable(s))
    ensures Reachable(Start(config, 0))
  {
    forall s: World, a | Reachable(s) && Enabled(s, a) ensures Reachable(Apply(s, a)) {
      ReachableStep(s, a);
    }
    assert Valid(Start(config, 0), []);
  }

  // ---- Effects of single steps -----------------------------------------------------------

  lemma CreationInserts(s: World, p: Process)
    requires p in s.processes && p.CreateAccepted? && CanInsertOrder(s.db, p.payment)
    ensures var t := Apply(s, CreateComplete(p));
      && t.provider == s.provider && t.db.outbox == s.db.outbox && t.db.inbound == s.db.inbound
      && t.db.orders == s.db.orders[p.payment.key := NewOrder(p.payment, s.now)]
  {
  }

  lemma GetWrites(s: World, p: Process)
    requires p in s.processes && p.GetAnswered? && p.payment.key in s.db.orders
    ensures var t, k := Apply(s, GetWrite(p)), p.payment.key;
      && t.now == s.now && t.config == s.config && t.provider == s.provider
      && t.db.outbox == s.db.outbox && t.db.inbound == s.db.inbound
      && t.processes == s.processes - multiset{p}
      && t.db.orders == s.db.orders[k := Written(s.db.orders[k], s.now, NormalizeStatus(p.raw), p.raw, s.now)]
  {
  }

  lemma TickPasses(s: World, elapsed: nat)
    ensures Enabled(s, Tick(elapsed)) && Apply(s, Tick(elapsed)) == s.(now := s.now + elapsed)
  {
    assert s.processes - multiset{} + multiset{} == s.processes;
  }

  lemma RecordsFirst(s: World, p: Process)
    requires p in s.processes && p.PollEmitting? && CanRecord(s.db, p.event) && p.event.key in s.db.orders
    ensures Enabled(s, PollRecord(p))
    ensures var t, e := Apply(s, PollRecord(p)), p.event;
      && t.now == s.now && t.config == s.config && t.provider == s.provider && t.processes == s.processes - multiset{p}
      && t.db.orders == s.db.orders[e.key := Written(s.db.orders[e.key], s.now, e.status, e.raw, e.observedAt)]
      && EventRecorded(t.db, e)
  {
  }

  // ---- One order, one stale answer ----------------------------------------------------------

  const KEY: PaymentKey := PaymentKey("c", "p")
  const COMMAND: CreateCommand := CreateCommand("t", "", "c", "m", "1", "USDT", None, "")

  /** The one order, without an expiry, and the statuses the provider has given it. */
  ghost predicate OnlyOrder(r: World -> bool, s: World, status: Status, ledger: Ledger) {
    && r(s)
    && s.db.orders.Keys == {KEY} && s.db.orders[KEY].status == status
    && s.db.orders[KEY].terms.expiresAt.None?
    && KEY in s.provider && s.provider[KEY] == ledger
  }

  /** A Get of the order whose answer, from before the payment, has not been applied yet. */
  predicate Stale(p: Process) {
    p.GetAnswered? && p.payment.key == KEY && p.raw == "INITIAL"
  }

  lemma Reserved(r: World -> bool, config: Config) returns (s: World)
    requires Closed(r) && r(Start(config, 0)) && "c" in config.connections
    ensures r(s) && s.now == 0 && s.provider == map[] && s.processes == multiset{CreateOwning("k", COMMAND)}
    ensures s.db.orders == map[] && s.db.outbox == map[] && s.db.inbound == map[]
  {
    var s0 := Start(config, 0);
    StepStays(r, s0, CreateInsert("k", COMMAND));
    s := Apply(s0, CreateInsert("k", COMMAND));
  }

  lemma Accepted(r: World -> bool, config: Config) returns (s: World)
    requires Closed(r) && r(Start(config, 0)) && "c" in config.connections
    ensures r(s) && s.provider == map[KEY := Ledger("INITIAL", {"INITIAL"})]
    ensures s.processes == multiset{CreateAccepted("k", CreatedPayment(COMMAND, "p", None, "", 0))}
    ensures s.db.orders == map[] && s.db.outbox == map[] && s.db.inbound == map[]
  {
    var s0 := Reserved(r, config);
    var call := CreateCall(CreateOwning("k", COMMAND), "p", None, "", 0);
    StepStays(r, s0, call);
    s := Apply(s0, call);
  }

  lemma FirstOrder(r: World -> bool, config: Config) returns (s: World)
    requires Closed(r) && r(Start(config, 0)) && "c" in config.connections
    ensures OnlyOrder(r, s, Created, Ledger("INITIAL", {"INITIAL"})) && s.db.outbox == map[] && s.db.inbound == map[]
    ensures s.db.orders[KEY].next.Some?
  {
    var s0 := Accepted(r, config);
    var p := CreateAccepted("k", CreatedPayment(COMMAND, "p", None, "", 0));
    StepStays(r, s0, CreateComplete(p));
    CreationInserts(s0, p);
    s := Apply(s0, CreateComplete(p));
  }

  /** A Get reads an order and gets an answer, which stays in flight. */
  lemma Ask(r: World -> bool, s: World, raw: string) returns (p: Process, t: World)
    requires Closed(r) && r(s) && KEY in s.db.orders && Held(s.provider, KEY, raw)
    ensures r(t)
    ensures p.GetAnswered? && p.payment.key == KEY && p.raw == raw
    ensures t == s.(processes := s.processes + multiset{p})
  {
    var found := GetFound(Snapshot(KEY, s.db.orders[KEY]));
    var u := Apply(s, GetFind(KEY));
    assert u.processes == s.processes + multiset{found};
    StepStays(r, s, GetFind(KEY));
    StepStays(r, u, GetQuery(found, raw));
    p, t := GetAnswered(found.payment, raw), Apply(u, GetQuery(found, raw));
    assert t.processes == s.processes + multiset{p};
  }

  lemma ProviderPays(s: World)
    requires KEY in s.provider && s.provider[KEY] == Ledger("INITIAL", {"INITIAL"})
    ensures Enabled(s, ProviderMoves(KEY, "PAY_SUCCESS"))
    ensures var t := Apply(s, ProviderMoves(KEY, "PAY_SUCCESS"));
      && t.now == s.now && t.db == s.db && t.processes == s.processes
      && KEY in t.provider && t.provider[KEY] == Paid()
  {
    NormalForms();
  }

  function Paid(): Ledger {
    Ledger("PAY_SUCCESS", {"INITIAL", "PAY_SUCCESS"})
  }

  lemma StaleAnswer(r: World -> bool, config: Config) returns (s: World, stale: Process)
    requires Closed(r) && r(Start(config, 0)) && "c" in config.connections
    ensures OnlyOrder(r, s, Created, Paid()) && s.db.outbox == map[] && s.db.inbound == map[]
    ensures s.db.orders[KEY].next.Some?
    ensures stale in s.processes && Stale(stale)
  {
    var s0 := FirstOrder(r, config);
    var p, s1 := Ask(r, s0, "INITIAL");
    ProviderPays(s1);
    StepStays(r, s1, ProviderMoves(KEY, "PAY_SUCCESS"));
    s, stale := Apply(s1, ProviderMoves(KEY, "PAY_SUCCESS")), p;
  }

  /**
   Neither absorbing nor always announced: Get confirms an order without an event, and an
   older answer then reopens it.
   */
  lemma FinishedOrderReopens(config: Config) returns (s: World, stale: Process)
    requires "c" in config.connections
    ensures Reachable(s) && KEY in s.db.orders && s.db.orders[KEY].status == Confirmed && s.db.outbox == map[]
    ensures Enabled(s, GetWrite(stale))
    ensures var t := Apply(s, GetWrite(stale)); KEY in t.db.orders && Open(t.db.orders[KEY].status)
  {
    ReachableIsClosed(config);
    var r := (w: World) => Reachable(w);
    var s0, late := StaleAnswer(r, config);
    var p, s1 := Ask(r, s0, "PAY_SUCCESS");
    StepStays(r, s1, GetWrite(p));
    GetWrites(s1, p);
    NormalForms();
    s, stale := Apply(s1, GetWrite(p)), late;
    assert p != late;
    GetWrites(s, late);
  }

  // ---- A reconciled order that stays open -----------------------------------------------

  /** The poll event of the one order, observed at an instant. */
  function PaidEvent(sha: Hash, terms: Terms, at: Time): Event {
    NewEvent(Payment(KEY, terms, Confirmed, "PAY_SUCCESS", at), PollId(sha, KEY, "PAY_SUCCESS"), Poll, "")
  }

  lemma ClaimTakes(s: World)
    requires s.db.orders.Keys == {KEY} && Due(s.db.orders[KEY], s.now)
    ensures Enabled(s, ClaimBatch([KEY], {}))
    ensures var t, o := Apply(s, ClaimBatch([KEY], {})), Claimed(s.db.orders[KEY], s.now);
      && t.now == s.now && t.config == s.config && t.provider == s.provider
      && t.db == s.db.(orders := map[KEY := o])
      && t.processes == s.processes + multiset{PollClaimed(Snapshot(KEY, o))}
  {
    var keys := [KEY];
    assert keys[0] in keys;
    var db := Claim(s.db, s.now, keys);
    assert Spawned(db, keys) == [PollClaimed(Snapshot(KEY, db.orders[KEY]))];
    assert db.orders == map[KEY := Claimed(s.db.orders[KEY], s.now)];
  }

  lemma ClaimOnly(r: World -> bool, s: World) returns (p: Process, t: World)
    requires Closed(r) && r(s) && s.db.orders.Keys == {KEY} && Due(s.db.orders[KEY], s.now)
    ensures r(t) && p == PollClaimed(Snapshot(KEY, Claimed(s.db.orders[KEY], s.now)))
    ensures t.now == s.now && t.config == s.config && t.provider == s.provider
    ensures t.db == s.db.(orders := map[KEY := Claimed(s.db.orders[KEY], s.now)])
    ensures t.processes == s.processes + multiset{p}
  {
    ClaimTakes(s);
    StepStays(r, s, ClaimBatch([KEY], {}));
    p, t := PollClaimed(Snapshot(KEY, Claimed(s.db.orders[KEY], s.now))), Apply(s, ClaimBatch([KEY], {}));
  }

  const ANSWER: Answer := Answer("", "", "", "PAY_SUCCESS", "")

  lemma QueryPaid(r: World -> bool, s: World, p: Process) returns (t: World)
    requires Closed(r) && r(s) && p in s.processes && p.PollClaimed? && Held(s.provider, p.payment.key, "PAY_SUCCESS")
    ensures r(t) && t == s.(processes := s.processes - multiset{p} + multiset{PollAnswered(p.payment, ANSWER)})
  {
    StepStays(r, s, PollQuery(p, ANSWER));
    t := Apply(s, PollQuery(p, ANSWER));
  }

  lemma PaidDecision(sha: Hash, p: Payment, at: Time)
    requires p.key == KEY && p.terms.expiresAt.None?
    ensures DecidePoll(sha, p, ANSWER, at, at) == Emit(PaidEvent(sha, p.terms, at))
  {
    NormalForms();
  }

  lemma PaidSuccessor(s: World, p: Process)
    requires p in s.processes && p.PollAnswered? && p.answer == ANSWER
    requires p.payment.key == KEY && p.payment.terms.expiresAt.None?
    ensures Successor(s, PollDecide(p, s.now, s.now)) ==
              Some(PollEmitting(PaidEvent(s.config.sha, p.payment.terms, s.now), Evidence("")))
  {
    PaidDecision(s.config.sha, p.payment, s.now);
  }

  lemma DecidesPaid(s: World, p: Process)
    requires p in s.processes && p.PollAnswered? && p.answer == ANSWER
    requires p.payment.key == KEY && p.payment.terms.expiresAt.None?
    ensures var a := PollDecide(p, s.now, s.now);
      && Enabled(s, a)
      && Apply(s, a) ==
           s.(processes := s.processes - multiset{p} +
               multiset{PollEmitting(PaidEvent(s.config.sha, p.payment.terms, s.now), Evidence(""))})
  {
    PaidSuccessor(s, p);
  }

  lemma DecidePaid(r: World -> bool, s: World, p: Process) returns (t: World)
    requires Closed(r) && r(s) && p in s.processes && p.PollAnswered? && p.answer == ANSWER
    requires p.payment.key == KEY && p.payment.terms.expiresAt.None?
    ensures r(t)
    ensures t == s.(processes := s.processes - multiset{p} +
        multiset{PollEmitting(PaidEvent(s.config.sha, p.payment.terms, s.now), Evidence(""))})
  {
    DecidesPaid(s, p);
    StepStays(r, s, PollDecide(p, s.now, s.now));
    t := Apply(s, PollDecide(p, s.now, s.now));
  }

  /** Claim, query and decision of one poll; its event is about to be recorded. */
  lemma PollOnce(r: World -> bool, s: World) returns (p: Process, t: World)
    requires Closed(r) && r(s) && s.db.orders.Keys == {KEY} && Due(s.db.orders[KEY], s.now)
    requires s.db.orders[KEY].terms.expiresAt.None? && Held(s.provider, KEY, "PAY_SUCCESS")
    ensures r(t)
    ensures p == PollEmitting(PaidEvent(s.config.sha, s.db.orders[KEY].terms, s.now), Evidence(""))
    ensures t.processes == s.processes + multiset{p}
    ensures t.now == s.now && t.config == s.config && t.provider == s.provider
    ensures t.db == s.db.(orders := map[KEY := Claimed(s.db.orders[KEY], s.now)])
  {
    var claimed, u := ClaimOnly(r, s);
    var v := QueryPaid(r, u, claimed);
    var answered := PollAnswered(claimed.payment, ANSWER);
    assert v.processes == s.processes + multiset{answered};
    t := DecidePaid(r, v, answered);
    p := PollEmitting(PaidEvent(s.config.sha, s.db.orders[KEY].terms, s.now), Evidence(""));
    assert t.processes == s.processes + multiset{p};
  }

  /** The world once the only order has become due. */
  lemma Wait(r: World -> bool, s: World) returns (t: World)
    requires Closed(r) && r(s) && s.db.orders.Keys == {KEY} && s.db.orders[KEY].next.Some? &&
        Open(s.db.orders[KEY].status)
    ensures r(t) && t == s.(now := t.now) && Due(s.db.orders[KEY], t.now)
  {
    var wait := if s.db.orders[KEY].next.value > s.now then s.db.orders[KEY].next.value - s.now else 0;
    TickPasses(s, wait);
    StepStays(r, s, Tick(wait));
    t := Apply(s, Tick(wait));
  }

  /** The order has been polled as paid and recorded; the stale answer is still in flight. */
  lemma RecordedPoll(r: World -> bool, config: Config) returns (s: World, stale: Process)
    requires Closed(r) && r(Start(config, 0)) && "c" in config.connections
    ensures OnlyOrder(r, s, Confirmed, Paid())
    ensures stale in s.processes && Stale(stale)
    ensures InboundKey("c", PollId(s.config.sha, KEY, "PAY_SUCCESS")) in s.db.inbound
  {
    var s0, late := StaleAnswer(r, config);
    var s1 := Wait(r, s0);
    var p, s2 := PollOnce(r, s1);
    RecordsFirst(s2, p);
    StepStays(r, s2, PollRecord(p));
    s, stale := Apply(s2, PollRecord(p)), late;
    assert late in s2.processes && late != p;
  }

  /** The stale answer reopens the recorded order. */
  lemma ReopenedAfterRecord(r: World -> bool, config: Config) returns (s: World)
    requires Closed(r) && r(Start(config, 0)) && "c" in config.connections
    ensures OnlyOrder(r, s, Created, Paid()) && s.db.orders[KEY].next.Some?
    ensures InboundKey("c", PollId(s.config.sha, KEY, "PAY_SUCCESS")) in s.db.inbound
  {
    var s0, stale := RecordedPoll(r, config);
    StepStays(r, s0, GetWrite(stale));
    GetWrites(s0, stale);
    NormalForms();
    s := Apply(s0, GetWrite(stale));
  }

  /** What a second poll of the recorded, reopened order is about to record. */
  lemma PolledAgain(r: World -> bool, s: World) returns (p: Process, t: World)
    requires Closed(r) && OnlyOrder(r, s, Created, Paid()) && Due(s.db.orders[KEY], s.now)
    requires InboundKey("c", PollId(s.config.sha, KEY, "PAY_SUCCESS")) in s.db.inbound
    ensures r(t) && p in t.processes && p.PollEmitting? && EventRecorded(t.db, p.event)
    ensures p.event.key == KEY && p.event.raw == "PAY_SUCCESS"
    ensures KEY in t.db.orders && t.db.orders[KEY].status == Created && KEY in t.provider && t.provider[KEY] == Paid()
    ensures t.db.inbound == s.db.inbound && t.config == s.config
  {
    p, t := PollOnce(r, s);
    assert InboundOf(p.event) == InboundKey("c", PollId(s.config.sha, KEY, "PAY_SUCCESS"));
  }

  /** An order is stranded, and a poll that saw its provider finished is about to be recorded. */
  lemma PolledInVain(r: World -> bool, config: Config) returns (s: World, p: Process)
    requires Closed(r) && r(Start(config, 0)) && "c" in config.connections
    ensures r(s) && Stranded(s, KEY)
    ensures p in s.processes && p.PollEmitting? && p.event.key == KEY && p.event.raw == s.provider[KEY].current
  {
    var s0 := ReopenedAfterRecord(r, config);
    var s1 := Wait(r, s0);
    NormalForms();
    p, s := PolledAgain(r, s1);
  }

  /**
   A stale answer reopens a reconciled order. The next poll sees the provider finished and finds
   its event recorded; this poll and all later ones, whatever else runs, leave the order open
   until a Get, a Cancel or a webhook writes it.
   */
  lemma ReconciledOrderStaysOpen(config: Config) returns (s: World, p: Process)
    requires "c" in config.connections
    ensures Reachable(s) && KEY in Lagging(s)
    ensures p in s.processes && p.PollEmitting? && p.event.key == KEY && p.event.raw == s.provider[KEY].current
    ensures forall run :: Valid(s, run) && Untouched(run, KEY) ==>
              KEY in Run(s, run).db.orders && Open(Run(s, run).db.orders[KEY].status)
  {
    ReachableIsClosed(config);
    s, p := PolledInVain((w: World) => Reachable(w), config);
    forall run | Valid(s, run) && Untouched(run, KEY)
      ensures KEY in Run(s, run).db.orders && Open(Run(s, run).db.orders[KEY].status)
    {
      StrandedForEver(s, run, KEY);
    }
  }
}
