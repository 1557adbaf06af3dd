/** Reachable worlds stay reachable: runs of the protocol can be continued. */
module Reachability {
  import opened Basics
  import opened Decisions
  import opened Protocol

  // Runs are appended to through their step relation, which keeps the steps themselves out of the proof.

  ghost predicate Path<W(!new), A>(step: (W, A, W) -> bool, s: W, run: seq<A>, t: W)
    decreases |run|
  {
    if run == [] then s == t else exists u :: step(s, run[0], u) && Path(step, u, run[1..], t)
  }

  lemma {:induction false} PathExtends<W(!new), A>(step: (W, A, W) -> bool, s: W, run: seq<A>, t: W, a: A, v: W)
    requires Path(step, s, run, t) && step(t, a, v)
    ensures Path(step, s, run + [a], v)
    decreases |run|
  {
    var more := run + [a];
    if run == [] {
      assert step(s, more[0], v) && Path(step, v, more[1..], v);
    } else {
      var u :| step(s, run[0], u) && Path(step, u, run[1..], t);
      PathExtends(step, u, run[1..], t, a, v);
      assert more[1..] == run[1..] + [a];
    }
  }

  ghost function StepRelation(): (World, Action, World) -> bool {
    (s: World, a: Action, t: World) => Enabled(s, a) && t == Apply(s, a)
  }

  lemma {:induction false} RunIsPath(s: World, run: seq<Action>)
    requires Valid(s, run)
    ensures Path(StepRelation(), s, run, Run(s, run))
    decreases |run|
  {
    if run != [] {
      assert StepRelation()(s, run[0], Apply(s, run[0]));
      RunIsPath(Apply(s, run[0]), run[1..]);
    }
  }

  lemma {:induction false} PathIsRun(s: World, run: seq<Action>, t: World)
    requires Path(StepRelation(), s, run, t)
    ensures Valid(s, run) && Run(s, run) == t
    decreases |run|
  {
    if run != [] {
      var u :| StepRelation()(s, run[0], u) && Path(StepRelation(), u, run[1..], t);
      PathIsRun(u, run[1..], t);
    }
  }

  lemma RunsReach(config: Config, now: Time, run: seq<Action>, t: World)
    requires Valid(Start(config, now), run) && Run(Start(config, now), run) == t
    ensures Reachable(t)
  {
  }

  lemma ReachableStep(s: World, a: Action)
    requires Reachable(s) && Enabled(s, a)
    ensures Reachable(Apply(s, a))
  {
    var config, now, run :| Valid(Start(config, now), run) && Run(Start(config, now), run) == s;
    RunIsPath(Start(config, now), run);
    PathExtends(StepRelation(), Start(config, now), run, s, a, Apply(s, a));
    PathIsRun(Start(config, now), run + [a], Apply(s, a));
    RunsReach(config, now, run + [a], Apply(s, a));
  }

  lemma {:induction false} RunKeepsConfig(s: World, run: seq<Action>)
    requires Valid(s, run)
    ensures Run(s, run).config == s.config
    decreases |run|
  {
    if run != [] {
      RunKeepsConfig(Apply(s, run[0]), run[1..]);
    }
  }

  lemma Prepend(s: World, a: Action, run: seq<Action>)
    requires Enabled(s, a) && Valid(Apply(s, a), run)
    ensures Valid(s, [a] + run) && Run(s, [a] + run) == Run(Apply(s, a), run)
  {
    assert ([a] + run)[1..] == run;
  }

  lemma {:induction false} ReachableRun(s: World, run: seq<Action>)
    requires Reachable(s) && Valid(s, run)
    ensures Reachable(Run(s, run))
    decreases |run|
  {
    if run != [] {
      ReachableStep(s, run[0]);
      ReachableRun(Apply(s, run[0]), run[1..]);
    }
  }
}
