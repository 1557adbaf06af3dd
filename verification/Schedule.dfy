/**
 The polling schedule: who is scheduled, who is claimed, how soon and how often. Everything
 here follows from what statements do to single rows, in every interleaving.
 */
module Schedule {
  import opened Basics
  import opened Model
  import opened Statuses
  import opened Tables
  import opened Statements
  import opened Protocol
  import Reachability

  // ---- Exactly the unfinished orders are scheduled -----------------------------------

  ghost predicate Scheduled(orders: map<PaymentKey, Order>) {
    forall k :: k in orders ==> (Open(orders[k].status) <==> orders[k].next.Some?)
  }

  /** The startup backfill establishes the schedule exactly when no finished order has a time. */
  lemma BackfillSchedules(db: Db, now: Time)
    ensures Scheduled(Backfill(db, now).orders) <==>
              forall k :: k in db.orders && !Open(db.orders[k].status) ==> db.orders[k].next.None?
  {
    forall k | k in db.orders
      ensures Backfill(db, now).orders[k] == Backfilled(db.orders[k], now)
    {
    }
    if Scheduled(Backfill(db, now).orders) {
      forall k | k in db.orders && !Open(db.orders[k].status) ensures db.orders[k].next.None? {
        assert k in Backfill(db, now).orders;
      }
    }
  }

  /** A claim takes unfinished rows only; the other statements need no condition. */
  ghost predicate TakesOpen(db: Db, q: Statement) {
    q.TakeBatch? ==> forall k :: k in q.keys && k in db.orders ==> Open(db.orders[k].status)
  }

  lemma StatementKeepsSchedule(db: Db, now: Time, q: Statement)
    requires Scheduled(db.orders) && TakesOpen(db, q)
    ensures Scheduled(Execute(db, now, q).orders)
  {
    RowsChange(db, now, q);
    var t := Execute(db, now, q);
    forall k | k in t.orders ensures Open(t.orders[k].status) <==> t.orders[k].next.Some? {
      if k in db.orders {
        assert t.orders[k] == Changed(db.orders[k], now, ChangeOf(db, q, k));
      }
    }
  }

  lemma StepKeepsSchedule(s: World, a: Action)
    requires Scheduled(s.db.orders) && Enabled(s, a)
    ensures Scheduled(Apply(s, a).db.orders)
    ensures s.now <= Apply(s, a).now
  {
    StatementKeepsSchedule(s.db, s.now, StatementOf(s, a));
  }

  function ChangeBy(s: World, a: Action, k: PaymentKey): RowChange
    requires Enabled(s, a)
  {
    ChangeOf(s.db, StatementOf(s, a), k)
  }

  lemma StepChangesRow(s: World, a: Action, k: PaymentKey)
    requires Enabled(s, a) && k in s.db.orders
    ensures k in Apply(s, a).db.orders
    ensures Apply(s, a).db.orders[k] == Changed(s.db.orders[k], s.now, ChangeBy(s, a, k))
    ensures ChangeBy(s, a, k).Take? <==> a.ClaimBatch? && k in a.keys
  {
    RowChanges(s.db, s.now, StatementOf(s, a), k);
    TakenByClaims(s, a, k);
  }

  lemma TakenByClaims(s: World, a: Action, k: PaymentKey)
    requires Enabled(s, a)
    ensures ChangeBy(s, a, k).Take? <==> a.ClaimBatch? && k in a.keys
  {
  }

  /**
   From any tables the backfill has scheduled, in every state of every run: an order is
   scheduled exactly while it is unfinished, and from its time on it is due.
   */
  lemma {:induction false} ScheduledThroughout(s: World, run: seq<Action>)
    requires Scheduled(s.db.orders) && Valid(s, run)
    ensures Scheduled(Run(s, run).db.orders)
    ensures forall k, t :: k in Run(s, run).db.orders ==>
              var o := Run(s, run).db.orders[k];
              Due(o, t) <==> Open(o.status) && o.next.value <= t
    decreases |run|
  {
    if run != [] {
      StepKeepsSchedule(s, run[0]);
      ScheduledThroughout(Apply(s, run[0]), run[1..]);
    }
  }

  // ---- No starvation -----------------------------------------------------------------

  /** The other orders a claim may prefer to k. */
  function Ahead(orders: map<PaymentKey, Order>, k: PaymentKey): set<PaymentKey>
    requires k in orders && orders[k].next.Some?
  {
    set j | j in orders && j != k && orders[j].next.Some? && orders[j].next.value <= orders[k].next.value
  }

  lemma {:induction false} DistinctCardinality<T>(s: seq<T>, elements: set<T>)
    requires Distinct(s) && elements == set x | x in s
    ensures |elements| == |s|
    decreases |s|
  {
    if s != [] {
      var init, last := s[..|s| - 1], s[|s| - 1];
      var rest := set x | x in init;
      assert elements == rest + {last} by {
        assert s == init + [last];
      }
      assert last !in rest;
      DistinctCardinality(init, rest);
    }
  }

  /** Every time a statement sets lies strictly in the future, so nothing new gets ahead. */
  lemma NothingGetsAhead(db: Db, now: Time, q: Statement, k: PaymentKey)
    requires Scheduled(db.orders) && k in db.orders && Due(db.orders[k], now)
    requires k in Execute(db, now, q).orders && Execute(db, now, q).orders[k] == db.orders[k]
    ensures Ahead(Execute(db, now, q).orders, k) <= Ahead(db.orders, k)
    ensures q.TakeBatch? ==> Ahead(Execute(db, now, q).orders, k) !! (set j | j in q.keys)
  {
    RowsChange(db, now, q);
    var t := Execute(db, now, q);
    forall j | j in Ahead(t.orders, k)
      ensures j in Ahead(db.orders, k)
      ensures q.TakeBatch? ==> j !in q.keys
    {
      if j in db.orders {
        assert t.orders[j] == Changed(db.orders[j], now, ChangeOf(db, q, j));
        RetryDelayBounds(db.orders[j].attempts);
      }
    }
  }

  /** The hour cap never binds. */
  lemma RetryDelayUncapped(attempts: nat)
    ensures RetryDelay(attempts) == Seconds(10 * Pow2(Min(attempts, 8)))
  {
    RetryPowerBounds(attempts);
  }

  lemma RetryPowerBounds(attempts: nat)
    ensures 1 <= Pow2(Min(attempts, 8)) <= 256
    ensures attempts >= 1 ==> Pow2(Min(attempts, 8)) >= 2
  {
    Pow2Monotone(Min(attempts, 8), 8);
    assert Pow2(8) == 256 by {
      assert Pow2(4) == 16;
    }
    if attempts >= 1 {
      Pow2Monotone(1, Min(attempts, 8));
    }
  }

  lemma RetryDelayBounds(attempts: nat)
    ensures Seconds(10) <= RetryDelay(attempts) <= Seconds(2560)
    ensures attempts >= 1 ==> RetryDelay(attempts) >= Seconds(20)
  {
    RetryDelayUncapped(attempts);
    RetryPowerBounds(attempts);
  }

  /** A full batch that passes k by consists of fifty orders ahead of it. */
  lemma PassedByFifty(db: Db, now: Time, keys: seq<PaymentKey>, locked: set<PaymentKey>, k: PaymentKey)
    requires Scheduled(db.orders) && k in db.orders && Due(db.orders[k], now)
    requires IsClaim(db.orders, now, BATCH, locked, keys) && k !in locked && k !in keys
    ensures |Ahead(Claim(db, now, keys).orders, k)| + BATCH <= |Ahead(db.orders, k)|
  {
    var batch := set j | j in keys;
    DistinctCardinality(keys, batch);
    var before, after := Ahead(db.orders, k), Ahead(Claim(db, now, keys).orders, k);
    NothingGetsAhead(db, now, TakeBatch(keys), k);
    assert batch <= before;
    SubsetCardinality(after, before - batch);
    assert |before - batch| == |before| - |batch|;
  }

  /** The batches of a run in which no other transaction holds k's row. */
  function Batches(run: seq<Action>, k: PaymentKey): nat {
    if run == [] then 0
    else (if run[0].ClaimBatch? && k !in run[0].locked then 1 else 0) + Batches(run[1..], k)
  }

  /** No step of the run reschedules k other than by claiming it. */
  ghost predicate OnlyClaimed(s: World, run: seq<Action>, k: PaymentKey)
    requires Valid(s, run)
    decreases |run|
  {
    run == [] || (
      var c := ChangeBy(s, run[0], k);
      (c.Keep? || c.Fill? || c.Take?) && OnlyClaimed(Apply(s, run[0]), run[1..], k))
  }

  ghost predicate ClaimedIn(s: World, run: seq<Action>, k: PaymentKey)
    requires Valid(s, run)
    decreases |run|
  {
    run != [] && ((run[0].ClaimBatch? && k in run[0].keys) || ClaimedIn(Apply(s, run[0]), run[1..], k))
  }

  lemma StepShrinksAhead(s: World, a: Action, k: PaymentKey)
    requires Scheduled(s.db.orders) && k in s.db.orders && Due(s.db.orders[k], s.now)
    requires Enabled(s, a) && k in Apply(s, a).db.orders && Apply(s, a).db.orders[k] == s.db.orders[k]
    requires !(a.ClaimBatch? && k in a.keys)
    ensures |Ahead(Apply(s, a).db.orders, k)| +
        (if a.ClaimBatch? && k !in a.locked then BATCH else 0) <= |Ahead(s.db.orders, k)|
  {
    if a.ClaimBatch? && k !in a.locked {
      PassedByFifty(s.db, s.now, a.keys, a.locked, k);
    } else {
      NothingGetsAhead(s.db, s.now, StatementOf(s, a), k);
      SubsetCardinality(Ahead(Apply(s, a).db.orders, k), Ahead(s.db.orders, k));
    }
  }

  lemma {:induction false} EveryBatchTakesFifty(s: World, run: seq<Action>, k: PaymentKey)
    requires Scheduled(s.db.orders) && k in s.db.orders && Due(s.db.orders[k], s.now)
    requires Valid(s, run) && OnlyClaimed(s, run, k) && !ClaimedIn(s, run, k)
    ensures Batches(run, k) * BATCH <= |Ahead(s.db.orders, k)|
    decreases |run|
  {
    if run != [] {
      StepKeepsSchedule(s, run[0]);
      StepChangesRow(s, run[0], k);
      EveryBatchTakesFifty(Apply(s, run[0]), run[1..], k);
      StepShrinksAhead(s, run[0], k);
    }
  }

  /**
   A due order that nothing else rewrites is claimed within floor(ahead / 50) + 1 batches in
   which its row is not locked, whatever else runs in between and however ties are broken.
   */
  lemma NoStarvation(s: World, run: seq<Action>, k: PaymentKey)
    requires Scheduled(s.db.orders) && k in s.db.orders && Due(s.db.orders[k], s.now)
    requires Valid(s, run) && OnlyClaimed(s, run, k)
    requires Batches(run, k) >= |Ahead(s.db.orders, k)| / BATCH + 1
    ensures ClaimedIn(s, run, k)
  {
    if !ClaimedIn(s, run, k) {
      EveryBatchTakesFifty(s, run, k);
    }
  }

  // ---- Spacing -----------------------------------------------------------------------

  /** A claimed order has been tried, and is not scheduled within 20 seconds of its last claim. */
  ghost predicate Spaced(s: World) {
    && Scheduled(s.db.orders)
    && forall k :: k in s.trace.claims ==>
         k in s.db.orders && SpacedRow(s.db.orders[k], s.trace.claims[k]) && s.trace.claims[k] <= s.now
  }

  ghost predicate SpacedRow(o: Order, claimed: Time) {
    o.attempts >= 1 && (o.next.Some? ==> o.next.value >= claimed + Seconds(20))
  }

  lemma ChangeKeepsSpacing(o: Order, now: Time, c: RowChange, claimed: Time)
    requires SpacedRow(o, claimed) && claimed <= now
    requires Open(o.status) <==> o.next.Some?
    ensures SpacedRow(Changed(o, now, c), claimed)
  {
    RetryDelayBounds(o.attempts);
  }

  lemma StepSpaced(s: World, a: Action)
    requires Spaced(s) && Enabled(s, a)
    ensures Spaced(Apply(s, a))
  {
    var t := Apply(s, a);
    StepKeepsSchedule(s, a);
    forall k | k in t.trace.claims
      ensures k in t.db.orders && SpacedRow(t.db.orders[k], t.trace.claims[k]) && t.trace.claims[k] <= t.now
    {
      StepChangesRow(s, a, k);
      if k in s.trace.claims {
        ChangeKeepsSpacing(s.db.orders[k], s.now, ChangeBy(s, a, k), s.trace.claims[k]);
      }
    }
  }

  lemma {:induction false} RunSpaced(s: World, run: seq<Action>)
    requires Spaced(s) && Valid(s, run)
    ensures Spaced(Run(s, run))
    decreases |run|
  {
    if run != [] {
      StepSpaced(s, run[0]);
      RunSpaced(Apply(s, run[0]), run[1..]);
    }
  }

  lemma LastClaimApart(s: World, keys: seq<PaymentKey>, locked: set<PaymentKey>, k: PaymentKey)
    requires Reachable(s) && Enabled(s, ClaimBatch(keys, locked)) && k in keys && k in s.trace.claims
    ensures s.now >= s.trace.claims[k] + Seconds(20)
  {
    var config, now, run :| Valid(Start(config, now), run) && Run(Start(config, now), run) == s;
    RunSpaced(Start(config, now), run);
  }

  lemma {:induction false} ClaimsRemembered(s: World, run: seq<Action>, k: PaymentKey, claimed: Time)
    requires Valid(s, run) && k in s.trace.claims && claimed <= s.trace.claims[k] && claimed <= s.now
    ensures k in Run(s, run).trace.claims && claimed <= Run(s, run).trace.claims[k]
    decreases |run|
  {
    if run != [] {
      ClaimsRemembered(Apply(s, run[0]), run[1..], k, claimed);
    }
  }

  lemma ClaimRemembered(s: World, keys: seq<PaymentKey>, locked: set<PaymentKey>, k: PaymentKey)
    requires Enabled(s, ClaimBatch(keys, locked)) && k in keys
    ensures var t := Apply(s, ClaimBatch(keys, locked)); k in t.trace.claims && t.trace.claims[k] == s.now == t.now
  {
  }

  /** Two batches of a run that claim one order are at least 20 seconds apart, whatever runs between them. */
  lemma ClaimsApart(s: World, keys: seq<PaymentKey>, locked: set<PaymentKey>, run: seq<Action>,
                    keys': seq<PaymentKey>, locked': set<PaymentKey>, k: PaymentKey)
    requires Reachable(s) && Enabled(s, ClaimBatch(keys, locked)) && k in keys
    requires Valid(Apply(s, ClaimBatch(keys, locked)), run)
    requires Enabled(Run(Apply(s, ClaimBatch(keys, locked)), run), ClaimBatch(keys', locked')) && k in keys'
    ensures Run(Apply(s, ClaimBatch(keys, locked)), run).now >= s.now + Seconds(20)
  {
    var t := Apply(s, ClaimBatch(keys, locked));
    ClaimRemembered(s, keys, locked, k);
    ClaimsRemembered(t, run, k, s.now);
    Reachability.ReachableStep(s, ClaimBatch(keys, locked));
    Reachability.ReachableRun(t, run);
    LastClaimApart(Run(t, run), keys', locked', k);
  }

  // ---- Backoff -----------------------------------------------------------------------

  /** The delays stored by j failures in a row, the first at n attempts. */
  function TotalDelay(n: nat, j: nat): int
    decreases j
  {
    if j == 0 then 0 else RetryDelay(n) + TotalDelay(n + 1, j - 1)
  }

  /** One step seen from one row: when it ran and what it did to the row. */
  datatype Moment = Moment(at: Time, change: RowChange)

  ghost function Trail(s: World, run: seq<Action>, k: PaymentKey): seq<Moment>
    requires Valid(s, run)
    decreases |run|
  {
    if run == [] then [] else [Moment(s.now, ChangeBy(s, run[0], k))] + Trail(Apply(s, run[0]), run[1..], k)
  }

  function After(o: Order, trail: seq<Moment>): Order
    decreases |trail|
  {
    if trail == [] then o else After(Changed(o, trail[0].at, trail[0].change), trail[1..])
  }

  /** Times do not decrease from `from` to `to`, and the row is claimed only when due. */
  predicate Orderly(o: Order, trail: seq<Moment>, from: Time, to: Time)
    decreases |trail|
  {
    if trail == [] then from <= to
    else
      && from <= trail[0].at
      && (trail[0].change.Take? ==> Due(o, trail[0].at))
      && Orderly(Changed(o, trail[0].at, trail[0].change), trail[1..], trail[0].at, to)
  }

  /** A run leaves a row as its trail says. */
  lemma {:induction false} TrailFollows(s: World, run: seq<Action>, k: PaymentKey)
    requires k in s.db.orders && Valid(s, run)
    ensures k in Run(s, run).db.orders && Run(s, run).db.orders[k] == After(s.db.orders[k], Trail(s, run, k))
    ensures Orderly(s.db.orders[k], Trail(s, run, k), s.now, Run(s, run).now)
    decreases |run|
  {
    if run != [] {
      StepChangesRow(s, run[0], k);
      TrailFollows(Apply(s, run[0]), run[1..], k);
    }
  }

  /** The row is only claimed and postponed, in turn; `working` says a failure is to come next. */
  predicate OnlyFailing(trail: seq<Moment>, working: bool) {
    if trail == [] then !working
    else
      match trail[0].change
      case Take => !working && OnlyFailing(trail[1..], true)
      case Delay(_) => working && OnlyFailing(trail[1..], false)
      case Rewrite(_, _, _) => false
      case _ => OnlyFailing(trail[1..], working)
  }

  function Failures(trail: seq<Moment>): nat {
    if trail == [] then 0 else (if trail[0].change.Delay? then 1 else 0) + Failures(trail[1..])
  }

  lemma {:induction false} BackoffFrom(o: Order, trail: seq<Moment>, working: bool, from: Time, start: Time, end: Time)
    requires Open(o.status) && o.next.Some? && from <= if working then start else o.next.value
    requires Orderly(o, trail, start, end) && OnlyFailing(trail, working) && Due(After(o, trail), end)
    ensures end >= from + TotalDelay(o.attempts + if working then 0 else 1, Failures(trail))
    decreases |trail|
  {
    if trail != [] {
      var at, c := trail[0].at, trail[0].change;
      var o' := Changed(o, at, c);
      if c.Take? {
        BackoffFrom(o', trail[1..], true, from, at, end);
      } else if c.Delay? {
        BackoffFrom(o', trail[1..], false, from + RetryDelay(o.attempts), at, end);
      } else {
        BackoffFrom(o', trail[1..], working, from, at, end);
      }
    }
  }

  lemma {:induction false} TotalDelaySplits(n: nat, i: nat, j: nat)
    ensures TotalDelay(n, i + j) == TotalDelay(n, i) + TotalDelay(n + i, j)
    decreases i
  {
    if i > 0 {
      TotalDelaySplits(n + 1, i - 1, j);
    }
  }

  lemma DoublingAdds(p: int)
    ensures Seconds(10 * (p - 2)) + Seconds(10 * p) == Seconds(10 * (2 * p - 2))
  {
  }

  /** Up to the eighth, each delay is twice the one before. */
  lemma {:induction false} DoublingDelays(j: nat)
    requires j <= 8
    ensures TotalDelay(1, j) == Seconds(10 * (Pow2(j + 1) - 2))
    decreases j
  {
    if j == 0 {
      assert Pow2(1) == 2;
    } else {
      DoublingDelays(j - 1);
      TotalDelaySplits(1, j - 1, 1);
      OneDelay(j);
      RetryDelayUncapped(j);
      DoublingAdds(Pow2(j));
    }
  }

  lemma OneDelay(n: nat)
    ensures TotalDelay(n, 1) == RetryDelay(n)
  {
    assert TotalDelay(n + 1, 0) == 0;
  }

  lemma {:induction false} CappedDelays(n: nat, j: nat)
    requires 9 <= n
    ensures TotalDelay(n, j) == Seconds(2560 * j)
    decreases j
  {
    if j > 0 {
      CappedDelays(n + 1, j - 1);
      RetryDelayUncapped(n);
      assert Pow2(8) == 256 by { assert Pow2(4) == 16; }
    }
  }

  /** The seconds k failures in a row put between a first claim and the next one. */
  function BackoffSeconds(failures: nat): int {
    if failures <= 8 then 10 * (Pow2(failures + 1) - 2) else 5100 + 2560 * (failures - 8)
  }

  lemma TotalDelayFromFirst(j: nat)
    ensures TotalDelay(1, j) == Seconds(BackoffSeconds(j))
  {
    assert Pow2(1) == 2;
    if j <= 8 {
      DoublingDelays(j);
    } else {
      TotalDelaySplits(1, 8, j - 8);
      DoublingDelays(8);
      CappedDelays(9, j - 8);
      assert Pow2(9) == 512 by { assert Pow2(5) == 32; }
    }
  }

  /**
   From a claim of an order that had no attempts, after any number of failures in a row with
   no other writer, the order is not due again before the summed backoff has passed.
   */
  lemma BackoffAfterFailures(s: World, run: seq<Action>, k: PaymentKey)
    requires Scheduled(s.db.orders) && k in s.db.orders && s.db.orders[k].attempts == 0
    requires run != [] && Valid(s, run) && run[0].ClaimBatch? && k in run[0].keys
    requires OnlyFailing(Trail(s, run, k), false)
    requires k in Run(s, run).db.orders && Due(Run(s, run).db.orders[k], Run(s, run).now)
    ensures Run(s, run).now >= s.now + Seconds(BackoffSeconds(Failures(Trail(s, run, k))))
  {
    StepChangesRow(s, run[0], k);
    TrailFollows(s, run, k);
    var trail, o := Trail(s, run, k), Claimed(s.db.orders[k], s.now);
    assert trail[0] == Moment(s.now, Take);
    BackoffFrom(o, trail[1..], true, s.now, s.now, Run(s, run).now);
    TotalDelayFromFirst(Failures(trail[1..]));
  }
}
