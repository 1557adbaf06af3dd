/**
 Two ways the refund protocol does more than its callers expect: a second key calls the
 provider again for a request id that already has a row, and a key sent with two request ids, one
 of them another key's too, lets one command's completion land on the other's row. With them, the
 exact conditions under which neither happens.
 */
module RefundCounterexamples {
  import opened Basics
  import opened Model
  import opened Statuses
  import opened Text
  import opened Tables
  import opened Decisions
  import opened Refunds
  import opened RefundCalls

  /** The refunds table after a first reservation. */
  lemma FirstReservation(s: World, key: string, payment: PaymentKey, cmd: RefundCommand) returns (t: World)
    requires s.db.refunds == map[] && s.calls == multiset{} && ValidRefund(s.config, s.db, key, payment, cmd)
    ensures Enabled(s, Insert(key, payment, cmd)) && t == Apply(s, Insert(key, payment, cmd))
    ensures t == s.(db := t.db, calls := multiset{Calling(key, cmd, true)})
    ensures t.db.orders == s.db.orders && t.db.refunds.Keys == {cmd.refund}
    ensures t.db.refunds[cmd.refund].key == key && t.db.refunds[cmd.refund].request == RemoveDashes(cmd.refund)
  {
    t := Apply(s, Insert(key, payment, cmd));
  }

  /** A second key reserving a refund that another key's row blocks inserts nothing, finds no row, and goes on. */
  lemma SecondReservation(s: World, key: string, payment: PaymentKey, cmd: RefundCommand, r: string)
    returns (t: World)
    requires Blocks(s.db, r, cmd) && !KeyHasRow(s.db, key) && ValidRefund(s.config, s.db, key, payment, cmd)
    requires Looking(key, cmd) !in s.calls
    ensures Valid(s, [Insert(key, payment, cmd), Lookup(Looking(key, cmd))])
    ensures t == Run(s, [Insert(key, payment, cmd), Lookup(Looking(key, cmd))])
    ensures t == s.(calls := s.calls + multiset{Calling(key, cmd, false)})
  {
    var insert, lookup := Insert(key, payment, cmd), Lookup(Looking(key, cmd));
    var u := Apply(s, insert);
    assert u == s.(calls := s.calls + multiset{Looking(key, cmd)});
    t := Apply(u, lookup);
    assert t.calls == s.calls + multiset{Calling(key, cmd, false)};
    assert Valid(t, []) && Run(t, []) == t;
    Prepend(u, lookup, []);
    assert [lookup] + [] == [lookup];
    Prepend(s, insert, [lookup]);
    assert [insert] + [lookup] == [insert, lookup];
  }

  lemma Responds(s: World, c: Call, raw: string)
    requires c in s.calls && c.Calling?
    ensures var a := Respond(c, "", raw, s.now);
      && Enabled(s, a)
      && Apply(s, a) == Counted(s, c).(calls := s.calls - multiset{c} +
          multiset{Accepted(c.key, c.cmd, NewRefund(c.cmd, "", raw, s.now), c.owner)})
  {
  }

  /** A command with the idempotency key it is sent under and the payment it refunds. */
  datatype Request = Request(key: string, payment: PaymentKey, cmd: RefundCommand)

  function SendingOf(q: Request): Sending {
    Sending(q.key, q.cmd)
  }

  predicate Accepts(s: World, q: Request) {
    ValidRefund(s.config, s.db, q.key, q.payment, q.cmd)
  }

  function Reserving(q: Request, p: Request): seq<Action> {
    [Insert(q.key, q.payment, q.cmd), Insert(p.key, p.payment, p.cmd), Lookup(Looking(p.key, p.cmd))]
  }

  /** One key's row, its owner about to call the provider, and a key it blocks about to call as well. */
  lemma Blockade(s: World, q: Request, p: Request) returns (t: World)
    requires Starting(s) && Accepts(s, q) && Accepts(s, p)
    requires q.key != p.key && RequestId(q.cmd) == RequestId(p.cmd)
    ensures Valid(s, Reserving(q, p)) && t == Run(s, Reserving(q, p))
    ensures t == s.(db := t.db, calls := multiset{Calling(q.key, q.cmd, true), Calling(p.key, p.cmd, false)})
    ensures t.db.orders == s.db.orders && t.db.refunds.Keys == {q.cmd.refund}
    ensures var row := t.db.refunds[q.cmd.refund]; row.key == q.key && row.request == RequestId(q.cmd)
  {
    var a := Insert(q.key, q.payment, q.cmd);
    var u := FirstReservation(s, q.key, q.payment, q.cmd);
    One(s, a);
    t := SecondReservation(u, p.key, p.payment, p.cmd, q.cmd.refund);
    var reserve := [Insert(p.key, p.payment, p.cmd), Lookup(Looking(p.key, p.cmd))];
    Chain(s, [a], reserve);
    assert [a] + reserve == Reserving(q, p);
  }

  // ---- Counting over appended runs -------------------------------------------------------------

  lemma {:induction false} Appended(run: seq<Action>, more: seq<Action>, sent: set<Sending>, key: string,
                                    request: string)
    ensures DrawsFrom(run + more, sent) <==> DrawsFrom(run, sent) && DrawsFrom(more, sent)
    ensures CallsBy(run + more, key) == CallsBy(run, key) + CallsBy(more, key)
    ensures CallsFor(run + more, request) == CallsFor(run, request) + CallsFor(more, request)
    decreases |run|
  {
    if run == [] {
      assert run + more == more;
    } else {
      assert (run + more)[0] == run[0] && (run + more)[1..] == run[1..] + more;
      Appended(run[1..], more, sent, key, request);
    }
  }

  lemma Single(a: Action, sent: set<Sending>, key: string, request: string)
    ensures DrawsFrom([a], sent) <==> Draws(a, sent)
    ensures CallsBy([a], key) == CallStep(a, key)
    ensures CallsFor([a], request) == if CallsWith(a, request) then 1 else 0
  {
    assert [a][1..] == [];
  }

  lemma ReservingDraws(q: Request, p: Request, sent: set<Sending>, key: string, request: string)
    requires SendingOf(q) in sent && SendingOf(p) in sent
    ensures DrawsFrom(Reserving(q, p), sent)
    ensures CallsBy(Reserving(q, p), key) == 0 && CallsFor(Reserving(q, p), request) == 0
  {
    var a, b, c := Reserving(q, p)[0], Reserving(q, p)[1], Reserving(q, p)[2];
    Single(a, sent, key, request);
    Single(b, sent, key, request);
    Single(c, sent, key, request);
    Appended([b], [c], sent, key, request);
    Appended([a], [b] + [c], sent, key, request);
    assert [a] + ([b] + [c]) == Reserving(q, p);
  }

  // ---- A second key ------------------------------------------------------------------------------

  function OwnCall(s: World, q: Request): Action {
    Respond(Calling(q.key, q.cmd, true), "", "", s.now)
  }

  function ForeignCall(s: World, q: Request): Action {
    Respond(Calling(q.key, q.cmd, false), "", "", s.now)
  }

  function CallingTwice(s: World, q: Request, p: Request): seq<Action> {
    Reserving(q, p) + [OwnCall(s, q)] + [ForeignCall(s, p)]
  }

  /**
   For any two refunds with one request id, even if their ids differ in dashes, a run exists in
   which the provider is called twice with it: once by the row's owner, once by the other key.
   */
  lemma SecondKeyCallsAgain(s: World, q: Request, p: Request)
    requires Starting(s) && Accepts(s, q) && Accepts(s, p)
    requires q.key != p.key && RequestId(q.cmd) == RequestId(p.cmd)
    ensures Valid(s, CallingTwice(s, q, p)) && DrawsFrom(CallingTwice(s, q, p), {SendingOf(q), SendingOf(p)})
    ensures CallsFor(CallingTwice(s, q, p), RequestId(q.cmd)) == 2
    ensures Run(s, CallingTwice(s, q, p)).foreign == map[RequestId(q.cmd) := 1]
  {
    var t := Blockade(s, q, p);
    var a, b := OwnCall(s, q), ForeignCall(s, p);
    Responds(t, a.call, "");
    One(t, a);
    Chain(s, Reserving(q, p), [a]);
    var u := Apply(t, a);
    Responds(u, b.call, "");
    One(u, b);
    Chain(s, Reserving(q, p) + [a], [b]);
    CountTwice(s, q, p, {SendingOf(q), SendingOf(p)});
  }

  lemma CountTwice(s: World, q: Request, p: Request, sent: set<Sending>)
    requires RequestId(q.cmd) == RequestId(p.cmd) && SendingOf(q) in sent && SendingOf(p) in sent
    ensures DrawsFrom(CallingTwice(s, q, p), sent) && CallsFor(CallingTwice(s, q, p), RequestId(q.cmd)) == 2
  {
    var request := RequestId(q.cmd);
    ReservingDraws(q, p, sent, "", request);
    Single(OwnCall(s, q), sent, "", request);
    Single(ForeignCall(s, p), sent, "", request);
    Appended(Reserving(q, p), [OwnCall(s, q)], sent, "", request);
    Appended(Reserving(q, p) + [OwnCall(s, q)], [ForeignCall(s, p)], sent, "", request);
  }

  /** Every sending is accepted for some payment. */
  predicate AllAccepted(s: World, sent: set<Sending>, payments: Sending -> PaymentKey) {
    forall x :: x in sent ==> Accepts(s, RequestOf(x, payments))
  }

  function RequestOf(x: Sending, payments: Sending -> PaymentKey): Request {
    Request(x.key, payments(x), x.cmd)
  }

  /** In every run that reserves only these, the provider is called at most once per request id. */
  ghost predicate CallsOnce(s: World, sent: set<Sending>) {
    forall run, request :: Valid(s, run) && DrawsFrom(run, sent) ==> CallsFor(run, request) <= 1
  }

  /**
   Every run calls the provider at most once per request id if and only if different keys are sent
   with different request ids, with however many commands each.
   */
  lemma OneCallPerRefundExactly(s: World, sent: set<Sending>, payments: Sending -> PaymentKey)
    requires Starting(s) && AllAccepted(s, sent, payments)
    ensures CallsOnce(s, sent) <==> DistinctRequests(sent)
  {
    if DistinctRequests(sent) {
      forall run, request | Valid(s, run) && DrawsFrom(run, sent) ensures CallsFor(run, request) <= 1 {
        DistinctRequestsCallOnce(s, run, sent, request);
      }
    } else {
      var x, y :| x in sent && y in sent && x.key != y.key && RequestId(x.cmd) == RequestId(y.cmd);
      var q, p := RequestOf(x, payments), RequestOf(y, payments);
      SecondKeyCallsAgain(s, q, p);
      CountTwice(s, q, p, sent);
      var run := CallingTwice(s, q, p);
      assert CallsFor(run, RequestId(q.cmd)) == 2;
    }
  }

  // ---- A reused key ------------------------------------------------------------------------------

  /** The blocked call is answered once its key has reserved another refund, whose row it then completes. */
  function HittingOtherRow(s: World, c: Request, a: Request, b: Request): seq<Action> {
    Reserving(c, a) + [Insert(b.key, b.payment, b.cmd)] + [ForeignCall(s, a)] + [OwnCall(s, b)]
    + [Complete(Accepted(a.key, a.cmd, NewRefund(a.cmd, "", "", s.now), false))]
  }

  /** A key's second request, when neither the key nor its request id has a row. */
  lemma ReservesOther(s: World, b: Request)
    requires Accepts(s, b) && CanInsertRefund(s.db, b.key, b.cmd)
    ensures var a := Insert(b.key, b.payment, b.cmd);
      && Enabled(s, a)
      && Apply(s, a) == s.(db := InsertRefund(s.db, s.now, b.key, s.config.refundFingerprint(b.cmd), b.cmd),
                           calls := s.calls + multiset{Calling(b.key, b.cmd, true)})
  {
  }

  /** Both calls of the key are answered; its row is still without an outcome. */
  lemma BothAnswered(s: World, a: Request, b: Request) returns (t: World)
    requires a.key == b.key && a.cmd != b.cmd
    requires Calling(a.key, a.cmd, false) in s.calls && Calling(b.key, b.cmd, true) in s.calls
    ensures Enabled(s, ForeignCall(s, a)) && Enabled(Apply(s, ForeignCall(s, a)), OwnCall(s, b))
    ensures t == Apply(Apply(s, ForeignCall(s, a)), OwnCall(s, b)) && t.db == s.db
    ensures Accepted(a.key, a.cmd, NewRefund(a.cmd, "", "", s.now), false) in t.calls
  {
    Responds(s, Calling(a.key, a.cmd, false), "");
    var u := Apply(s, ForeignCall(s, a));
    assert Calling(b.key, b.cmd, true) in u.calls;
    Responds(u, Calling(b.key, b.cmd, true), "");
    t := Apply(u, OwnCall(s, b));
  }

  lemma {:induction false} FourSteps(s: World, run: seq<Action>, a: Action, b: Action, c: Action, d: Action)
    requires Valid(s, run) && Enabled(Run(s, run), a) && Enabled(Apply(Run(s, run), a), b)
    requires Enabled(Apply(Apply(Run(s, run), a), b), c) && Enabled(Apply(Apply(Apply(Run(s, run), a), b), c), d)
    ensures Valid(s, run + [a] + [b] + [c] + [d])
    ensures Run(s, run + [a] + [b] + [c] + [d]) == Apply(Apply(Apply(Apply(Run(s, run), a), b), c), d)
  {
    OneMore(s, run, a);
    OneMore(s, run + [a], b);
    OneMore(s, run + [a] + [b], c);
    OneMore(s, run + [a] + [b] + [c], d);
  }

  lemma OneMore(s: World, run: seq<Action>, a: Action)
    requires Valid(s, run) && Enabled(Run(s, run), a)
    ensures Valid(s, run + [a]) && Run(s, run + [a]) == Apply(Run(s, run), a)
  {
    One(Run(s, run), a);
    Chain(s, run, [a]);
  }

  lemma CompletesOtherRow(s: World, a: Request, b: Request)
    requires Accepted(a.key, a.cmd, NewRefund(a.cmd, "", "", s.now), false) in s.calls
    requires b.cmd.refund in s.db.refunds && s.db.refunds[b.cmd.refund].key == a.key
    requires s.db.refunds[b.cmd.refund].command == b.cmd
    ensures var c := Complete(Accepted(a.key, a.cmd, NewRefund(a.cmd, "", "", s.now), false));
      && Enabled(s, c)
      && var t := Apply(s, c);
         && b.cmd.refund in t.db.refunds
         && var row := t.db.refunds[b.cmd.refund];
            row.key == a.key && row.command == b.cmd && row.response == Some(NewRefund(a.cmd, "", "", s.now))
  {
  }

  /**
   For any three refunds, two of one key with different request ids, and one of another key with
   the first's request id: the first's completion lands on the second's row, whose key has then
   called the provider twice.
   */
  lemma ReusedKeyHitsOtherRow(s: World, c: Request, a: Request, b: Request)
    requires Starting(s) && Accepts(s, a) && Accepts(s, b) && Accepts(s, c)
    requires a.key == b.key && c.key != a.key
    requires RequestId(a.cmd) == RequestId(c.cmd) && RequestId(a.cmd) != RequestId(b.cmd)
    ensures Valid(s, HittingOtherRow(s, c, a, b))
    ensures var t := Run(s, HittingOtherRow(s, c, a, b));
      && b.cmd.refund in t.db.refunds
      && var row := t.db.refunds[b.cmd.refund];
         && row.key == a.key && row.command == b.cmd
         && row.response.Some? && row.response.value.id == a.cmd.refund && !Answers(row.response.value, b.cmd)
  {
    var t := Blockade(s, c, a);
    ReservesOther(t, b);
    var insert := Insert(b.key, b.payment, b.cmd);
    var u := Apply(t, insert);
    var v := BothAnswered(u, a, b);
    CompletesOtherRow(v, a, b);
    FourSteps(s, Reserving(c, a), insert, ForeignCall(s, a), OwnCall(s, b),
              Complete(Accepted(a.key, a.cmd, NewRefund(a.cmd, "", "", s.now), false)));
  }

  lemma HittingDraws(s: World, c: Request, a: Request, b: Request, sent: set<Sending>)
    requires SendingOf(a) in sent && SendingOf(b) in sent && SendingOf(c) in sent && a.key == b.key
    ensures DrawsFrom(HittingOtherRow(s, c, a, b), sent) && CallsBy(HittingOtherRow(s, c, a, b), a.key) == 2
  {
    var insert, done := Insert(b.key, b.payment, b.cmd),
        Complete(Accepted(a.key, a.cmd, NewRefund(a.cmd, "", "", s.now), false));
    var run := Reserving(c, a);
    ReservingDraws(c, a, sent, a.key, "");
    Single(insert, sent, a.key, "");
    Single(ForeignCall(s, a), sent, a.key, "");
    Single(OwnCall(s, b), sent, a.key, "");
    Single(done, sent, a.key, "");
    Appended(run, [insert], sent, a.key, "");
    Appended(run + [insert], [ForeignCall(s, a)], sent, a.key, "");
    Appended(run + [insert] + [ForeignCall(s, a)], [OwnCall(s, b)], sent, a.key, "");
    Appended(run + [insert] + [ForeignCall(s, a)] + [OwnCall(s, b)], [done], sent, a.key, "");
  }

  /** In every run that reserves only these, a stored response answers its row's command. */
  ghost predicate ResponsesAnswer(s: World, sent: set<Sending>) {
    forall run, r :: Valid(s, run) && DrawsFrom(run, sent) && r in Run(s, run).db.refunds ==>
      AnswersOwn(Run(s, run).db.refunds[r])
  }

  predicate AnswersOwn(row: RefundRow) {
    row.response.Some? ==> Answers(row.response.value, row.command)
  }

  /** In every run that reserves only these, a key with a row has called the provider at most once. */
  ghost predicate OwnersOnce(s: World, sent: set<Sending>) {
    forall run, key :: Valid(s, run) && DrawsFrom(run, sent) && KeyHasRow(Run(s, run).db, key) ==>
        CallsBy(run, key) <= 1
  }

  lemma HarmlessAnswers(s: World, sent: set<Sending>)
    requires Starting(s) && Harmless(sent)
    ensures ResponsesAnswer(s, sent) && OwnersOnce(s, sent)
  {
    forall run, r | Valid(s, run) && DrawsFrom(run, sent) && r in Run(s, run).db.refunds
      ensures AnswersOwn(Run(s, run).db.refunds[r])
    {
      ResponsesAnswerTheirCommands(s, run, sent, r);
    }
    forall run, key | Valid(s, run) && DrawsFrom(run, sent) && KeyHasRow(Run(s, run).db, key)
      ensures CallsBy(run, key) <= 1
    {
      RowOwnersCallOnce(s, run, sent, key);
    }
  }

  /**
   Stored responses answer their rows' commands in every run if and only if reuse of keys does no
   harm, and so do keys with a row call the provider at most once.
   */
  lemma HarmlessExactly(s: World, sent: set<Sending>, payments: Sending -> PaymentKey)
    requires Starting(s) && AllAccepted(s, sent, payments)
    ensures ResponsesAnswer(s, sent) <==> Harmless(sent)
    ensures OwnersOnce(s, sent) <==> Harmless(sent)
  {
    if Harmless(sent) {
      HarmlessAnswers(s, sent);
    } else {
      var x, y, z :| x in sent && y in sent && z in sent && x.key == y.key && z.key != x.key
                     && RequestId(x.cmd) == RequestId(z.cmd) && RequestId(x.cmd) != RequestId(y.cmd);
      HarmfulReuse(s, sent, RequestOf(z, payments), RequestOf(x, payments), RequestOf(y, payments));
    }
  }

  lemma HarmfulReuse(s: World, sent: set<Sending>, c: Request, a: Request, b: Request)
    requires Starting(s) && Accepts(s, a) && Accepts(s, b) && Accepts(s, c)
    requires SendingOf(a) in sent && SendingOf(b) in sent && SendingOf(c) in sent
    requires a.key == b.key && c.key != a.key
    requires RequestId(a.cmd) == RequestId(c.cmd) && RequestId(a.cmd) != RequestId(b.cmd)
    ensures !ResponsesAnswer(s, sent) && !OwnersOnce(s, sent)
  {
    ReusedKeyHitsOtherRow(s, c, a, b);
    HittingDraws(s, c, a, b, sent);
    var run := HittingOtherRow(s, c, a, b);
    assert !AnswersOwn(Run(s, run).db.refunds[b.cmd.refund]);
    assert HoldsKey(Run(s, run).db, b.cmd.refund, a.key);
    assert KeyHasRow(Run(s, run).db, a.key) && CallsBy(run, a.key) == 2;
  }
}
