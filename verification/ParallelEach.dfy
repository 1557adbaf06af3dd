/**
 The worker pool of the reconciler (`parallelEach` in internal/app/reconciler.go): one feeder and
 some workers over an unbuffered channel, as interleaved steps. Handing an item over is one step
 of both sides. Items are named by their index.
 */
module Pools {
  import opened Basics

  datatype Worker = Waiting | Working(item: nat) | Gone

  /** The feeder: at item `next`, past closing the channel, or back at the caller. */
  datatype Feeder = Feeding(next: nat) | Closed | Returned

  /** `stopped` records that the feeder left its loop because of the cancellation. */
  datatype Pool = Pool(
    total: nat,
    workers: seq<Worker>,
    feeder: Feeder,
    cancelled: bool,
    stopped: bool,
    started: seq<nat>,
    finished: set<nat>)

  datatype Action =
    | Cancel
    | Hand(worker: nat)
    | Finish(worker: nat)
    | Exit(worker: nat)
    | Close
    | Stop
    | Return

  predicate Is(s: Pool, w: nat, state: Worker) {
    w < |s.workers| && s.workers[w] == state
  }

  /** The select may hand an item over even after the cancellation; it stops only when cancelled. */
  predicate Enabled(s: Pool, a: Action) {
    match a
    case Cancel => true
    case Hand(w) => s.feeder.Feeding? && s.feeder.next < s.total && Is(s, w, Waiting)
    case Finish(w) => w < |s.workers| && s.workers[w].Working?
    case Exit(w) => !s.feeder.Feeding? && Is(s, w, Waiting)
    case Close => s.feeder == Feeding(s.total)
    case Stop => s.feeder.Feeding? && s.feeder.next < s.total && s.cancelled
    case Return => s.feeder.Closed? && forall w :: 0 <= w < |s.workers| ==> s.workers[w].Gone?
  }

  function Apply(s: Pool, a: Action): Pool
    requires Enabled(s, a)
  {
    match a
    case Cancel => s.(cancelled := true)
    case Hand(w) =>
      var item := s.feeder.next;
      s.(workers := s.workers[w := Working(item)], feeder := Feeding(item + 1), started := s.started + [item])
    case Finish(w) => s.(workers := s.workers[w := Waiting], finished := s.finished + {s.workers[w].item})
    case Exit(w) => s.(workers := s.workers[w := Gone])
    case Close => s.(feeder := Closed)
    case Stop => s.(feeder := Closed, stopped := true)
    case Return => s.(feeder := Returned)
  }

  /** No item or an already cancelled call returns at once; a count below one starts no worker. */
  function Start(total: nat, concurrency: int, cancelled: bool): Pool {
    if total == 0 || cancelled then Pool(total, [], Returned, cancelled, cancelled, [], {})
    else
      var count := Min(concurrency, total);
      Pool(total, seq(if count < 0 then 0 else count, _ => Waiting), Feeding(0), false, false, [], {})
  }

  predicate Valid(s: Pool, run: seq<Action>)
    decreases |run|
  {
    run == [] || (Enabled(s, run[0]) && Valid(Apply(s, run[0]), run[1..]))
  }

  function Run(s: Pool, run: seq<Action>): Pool
    requires Valid(s, run)
    decreases |run|
  {
    if run == [] then s else Run(Apply(s, run[0]), run[1..])
  }

  // ---- Counting workers --------------------------------------------------------------------

  function Busy(w: Worker): nat {
    if w.Working? then 1 else 0
  }

  /** Steps a worker still owes: finish, then leave. */
  function Owes(w: Worker): nat {
    match w case Gone => 0 case Waiting => 1 case Working(_) => 2
  }

  function Sum(workers: seq<Worker>, f: Worker -> nat): nat {
    if workers == [] then 0 else f(workers[0]) + Sum(workers[1..], f)
  }

  lemma {:induction false} SumUpdate(workers: seq<Worker>, f: Worker -> nat, w: nat, x: Worker)
    requires w < |workers|
    ensures Sum(workers[w := x], f) == Sum(workers, f) - f(workers[w]) + f(x)
    decreases |workers|
  {
    if w == 0 {
      assert workers[0 := x][1..] == workers[1..];
    } else {
      assert workers[w := x][1..] == workers[1..][w - 1 := x];
      SumUpdate(workers[1..], f, w - 1, x);
    }
  }

  lemma {:induction false} SumUniform(workers: seq<Worker>, f: Worker -> nat, each: nat)
    requires forall w :: 0 <= w < |workers| ==> f(workers[w]) == each
    ensures Sum(workers, f) == each * |workers|
    decreases |workers|
  {
    if workers != [] {
      SumUniform(workers[1..], f, each);
    }
  }

  lemma {:induction false} SumAtMost(workers: seq<Worker>, f: Worker -> nat, each: nat)
    requires forall w :: f(w) <= each
    ensures Sum(workers, f) <= each * |workers|
    decreases |workers|
  {
    if workers != [] {
      SumAtMost(workers[1..], f, each);
    }
  }

  // ---- The invariant -------------------------------------------------------------------------

  /** The started items are the first ones, in order; the feeder stands right behind them. */
  predicate InOrder(s: Pool) {
    && |s.started| <= s.total
    && (forall i :: 0 <= i < |s.started| ==> s.started[i] == i)
    && (s.feeder.Feeding? ==> s.feeder.next == |s.started| && !s.stopped)
    && (!s.feeder.Feeding? && !s.stopped ==> |s.started| == s.total)
    && (s.stopped ==> s.cancelled)
  }

  /** Each started item is finished or in the hands of exactly one worker. */
  ghost predicate Tracked(s: Pool) {
    && (forall i :: i in s.finished ==> i < |s.started|)
    && (forall w :: 0 <= w < |s.workers| && s.workers[w].Working? ==>
          s.workers[w].item < |s.started| && s.workers[w].item !in s.finished)
    && (forall v, w :: 0 <= v < w < |s.workers| && s.workers[v].Working? ==> s.workers[v] != s.workers[w])
    && |s.started| == |s.finished| + Sum(s.workers, Busy)
  }

  predicate Phased(s: Pool) {
    && (s.feeder.Feeding? ==> forall w :: 0 <= w < |s.workers| ==> !s.workers[w].Gone?)
    && (s.feeder.Returned? ==> forall w :: 0 <= w < |s.workers| ==> s.workers[w].Gone?)
  }

  ghost predicate Sound(s: Pool) {
    InOrder(s) && Tracked(s) && Phased(s)
  }

  lemma StartSound(total: nat, concurrency: int, cancelled: bool)
    ensures Sound(Start(total, concurrency, cancelled))
  {
    SumUniform(Start(total, concurrency, cancelled).workers, Busy, 0);
  }

  lemma HandTracked(s: Pool, w: nat)
    requires Sound(s) && Enabled(s, Hand(w))
    ensures Tracked(Apply(s, Hand(w)))
  {
    SumUpdate(s.workers, Busy, w, Working(s.feeder.next));
  }

  lemma FinishTracked(s: Pool, w: nat)
    requires Tracked(s) && Enabled(s, Finish(w))
    ensures Tracked(Apply(s, Finish(w)))
  {
    SumUpdate(s.workers, Busy, w, Waiting);
  }

  lemma StepSound(s: Pool, a: Action)
    requires Sound(s) && Enabled(s, a)
    ensures Sound(Apply(s, a))
  {
    match a {
      case Hand(w) => HandTracked(s, w);
      case Finish(w) => FinishTracked(s, w);
      case Exit(w) => SumUpdate(s.workers, Busy, w, Gone);
      case _ =>
    }
  }

  lemma {:induction false} RunSound(s: Pool, run: seq<Action>)
    requires Sound(s) && Valid(s, run)
    ensures var t := Run(s, run);
      Sound(t) && t.total == s.total && |t.workers| == |s.workers| && (s.cancelled ==> t.cancelled)
    decreases |run|
  {
    if run != [] {
      StepSound(s, run[0]);
      RunSound(Apply(s, run[0]), run[1..]);
    }
  }

  // ---- Results -------------------------------------------------------------------------------

  /**
   At every moment of every schedule: the started items are the first ones, each once; those
   not finished are in as many workers' hands, never more than the concurrency.
   */
  lemma WorkedOnceInOrder(total: nat, concurrency: int, cancelled: bool, run: seq<Action>)
    requires Valid(Start(total, concurrency, cancelled), run)
    ensures var s := Run(Start(total, concurrency, cancelled), run);
      && |s.started| <= total && (forall i :: 0 <= i < |s.started| ==> s.started[i] == i)
      && (forall i :: i in s.finished ==> i in s.started)
      && |s.started| - |s.finished| == Sum(s.workers, Busy)
      && (concurrency >= 0 ==> Sum(s.workers, Busy) <= Min(concurrency, total))
  {
    StartSound(total, concurrency, cancelled);
    RunSound(Start(total, concurrency, cancelled), run);
    var s := Run(Start(total, concurrency, cancelled), run);
    SumAtMost(s.workers, Busy, 1);
    forall i | i in s.finished ensures i in s.started {
      assert s.started[i] == i;
    }
  }

  function Below(n: nat): (all: set<nat>)
    ensures |all| == n && forall i: nat :: i in all <==> i < n
  {
    if n == 0 then {} else var rest := Below(n - 1); rest + {n - 1}
  }

  /** The call returns only when all started work has ended; if it was not cancelled, that is all items. */
  lemma ReturnsWhenDone(total: nat, concurrency: int, cancelled: bool, run: seq<Action>)
    requires Valid(Start(total, concurrency, cancelled), run)
    requires Run(Start(total, concurrency, cancelled), run).feeder.Returned?
    ensures var s := Run(Start(total, concurrency, cancelled), run);
      && (forall i :: i in s.started <==> i in s.finished)
      && (!s.cancelled ==> forall i :: 0 <= i < total ==> i in s.finished)
  {
    StartSound(total, concurrency, cancelled);
    RunSound(Start(total, concurrency, cancelled), run);
    var s := Run(Start(total, concurrency, cancelled), run);
    SumUniform(s.workers, Busy, 0);
    SubsetCardinality(s.finished, Below(|s.started|));
    forall i | i in s.finished ensures i in s.started {
      assert s.started[i] == i;
    }
  }

  /** What the call still has to do: hand over, finish and leave, close, return. */
  function Remaining(s: Pool): int {
    2 * (s.total - |s.started|) + Sum(s.workers, Owes) +
        (match s.feeder case Feeding(_) => 2 case Closed => 1 case Returned => 0)
  }

  lemma StepUsesWork(s: Pool, a: Action)
    requires Sound(s) && Enabled(s, a)
    ensures 0 <= Remaining(Apply(s, a)) <= Remaining(s) - if a.Cancel? then 0 else 1
  {
    StepSound(s, a);
    match a {
      case Hand(w) => SumUpdate(s.workers, Owes, w, Working(s.feeder.next));
      case Finish(w) => SumUpdate(s.workers, Owes, w, Waiting);
      case Exit(w) => SumUpdate(s.workers, Owes, w, Gone);
      case _ =>
    }
  }

  function OwnSteps(run: seq<Action>): nat {
    if run == [] then 0 else (if run[0].Cancel? then 0 else 1) + OwnSteps(run[1..])
  }

  lemma {:induction false} RunUsesWork(s: Pool, run: seq<Action>)
    requires Sound(s) && Valid(s, run)
    ensures OwnSteps(run) + Remaining(Run(s, run)) <= Remaining(s)
    ensures Remaining(Run(s, run)) >= 0
    decreases |run|
  {
    if run != [] {
      StepUsesWork(s, run[0]);
      StepSound(s, run[0]);
      RunUsesWork(Apply(s, run[0]), run[1..]);
    }
  }

  /** No schedule goes on for ever: a call takes at most two steps an item, one a worker and two of its own. */
  lemma EveryScheduleEnds(total: nat, concurrency: int, cancelled: bool, run: seq<Action>)
    requires Valid(Start(total, concurrency, cancelled), run)
    ensures OwnSteps(run) <= 2 * total + (if concurrency < 0 then 0 else Min(concurrency, total)) + 2
  {
    var s := Start(total, concurrency, cancelled);
    StartSound(total, concurrency, cancelled);
    RunUsesWork(s, run);
    SumUniform(s.workers, Owes, 1);
  }

  /** One step hands the next item to the next worker. */
  lemma {:induction false} HandsOut(s: Pool, i: nat) returns (run: seq<Action>)
    requires i <= |s.workers| <= s.total && s.feeder == Feeding(i)
    requires forall w :: 0 <= w < |s.workers| ==> s.workers[w] == if w < i then Working(w) else Waiting
    ensures Valid(s, run)
    ensures forall w :: 0 <= w < |s.workers| ==> Is(Run(s, run), w, Working(w))
    ensures |Run(s, run).workers| == |s.workers|
    decreases |s.workers| - i
  {
    if i == |s.workers| {
      run := [];
    } else {
      var rest := HandsOut(Apply(s, Hand(i)), i + 1);
      run := [Hand(i)] + rest;
      assert run[1..] == rest;
    }
  }

  /** The full concurrency is used: in some schedule, as many items run at once as it and the items allow. */
  lemma AllAtOnce(total: nat, concurrency: nat) returns (run: seq<Action>)
    requires total > 0
    ensures var s := Start(total, concurrency, false);
      && Valid(s, run)
      && |Run(s, run).workers| == Min(concurrency, total)
      && forall w :: 0 <= w < Min(concurrency, total) ==> Is(Run(s, run), w, Working(w))
  {
    run := HandsOut(Start(total, concurrency, false), 0);
  }

  /** Nobody takes the items: no worker was started and nobody cancels. */
  predicate Stuck(s: Pool) {
    s.workers == [] && s.feeder.Feeding? && s.feeder.next < s.total && !s.cancelled
  }

  /** Until the call returns, some step of its own is possible, except exactly when it is stuck. */
  lemma ProgressExactly(total: nat, concurrency: int, cancelled: bool, run: seq<Action>)
    requires Valid(Start(total, concurrency, cancelled), run)
    requires !Run(Start(total, concurrency, cancelled), run).feeder.Returned?
    ensures var s := Run(Start(total, concurrency, cancelled), run);
      (exists a: Action :: !a.Cancel? && Enabled(s, a)) <==> !Stuck(s)
  {
    StartSound(total, concurrency, cancelled);
    RunSound(Start(total, concurrency, cancelled), run);
    var s := Run(Start(total, concurrency, cancelled), run);
    if !Stuck(s) {
      var a := NextStep(s);
    }
  }

  lemma NextStep(s: Pool) returns (a: Action)
    requires Sound(s) && !s.feeder.Returned? && !Stuck(s)
    ensures !a.Cancel? && Enabled(s, a)
  {
    if w: nat :| w < |s.workers| && s.workers[w].Working? {
      a := Finish(w);
    } else if s.feeder.Closed? {
      if w: nat :| w < |s.workers| && !s.workers[w].Gone? {
        a := Exit(w);
      } else {
        a := Return;
      }
    } else if s.feeder.next == s.total {
      a := Close;
    } else if s.cancelled {
      a := Stop;
    } else {
      a := Hand(0);
    }
  }

  /** RunReconciler raises a concurrency below one to one, which is just what it takes. */
  function AtLeastOne(concurrency: int): int {
    if concurrency < 1 then 1 else concurrency
  }

  lemma ReconcilerNeverStuck(total: nat, concurrency: int, cancelled: bool, run: seq<Action>)
    requires Valid(Start(total, AtLeastOne(concurrency), cancelled), run)
    ensures !Stuck(Run(Start(total, AtLeastOne(concurrency), cancelled), run))
  {
    StartSound(total, AtLeastOne(concurrency), cancelled);
    RunSound(Start(total, AtLeastOne(concurrency), cancelled), run);
  }

  /** Below one, a call with work that is not cancelled yet is stuck from its start. */
  lemma NoWorkersStick(total: nat, concurrency: int)
    requires total > 0
    ensures Stuck(Start(total, concurrency, false)) <==> concurrency < 1
  {
  }
}
