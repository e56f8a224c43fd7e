/**
  * apps/worker/src/index.ts:284-316: the polling loops, whose number follows the concurrency
  * setting. A loop to be dropped is only marked, and ends after the task it has in hand.
  */
module PollLoops {

  /** The loops in order: for each, whether it is marked to stop. */
  type Loops = seq<bool>

  function Unmarked(loops: Loops): (n: nat)
    ensures n <= |loops|
  {
    if loops == [] then 0 else Unmarked(loops[..|loops| - 1]) + if loops[|loops| - 1] then 0 else 1
  }

  function Fresh(n: nat): (loops: Loops)
    ensures |loops| == n && forall i :: 0 <= i < n ==> !loops[i]
  {
    seq(n, i => false)
  }

  /** Adds loops up to the target, and marks those beyond it. */
  function Applied(loops: Loops, target: nat): (r: Loops)
    ensures |r| == if target < |loops| then |loops| else target
    ensures forall i :: 0 <= i < |r| ==> r[i] == (i >= target || (i < |loops| && loops[i]))
  {
    seq(if target < |loops| then |loops| else target,
        i requires 0 <= i => i >= target || (i < |loops| && loops[i]))
  }

  /** Only a marked loop ends; it leaves the list. */
  function Ended(loops: Loops, i: nat): (r: Loops)
    requires i < |loops|
    ensures |r| == |loops| - 1
    ensures forall k :: 0 <= k < |r| ==> r[k] == loops[if k < i then k else k + 1]
  {
    loops[..i] + loops[i + 1..]
  }

  class Poller {
    var loops: Loops

    constructor ()
      ensures loops == []
    {
      loops := [];
    }

    method ApplyConcurrency(target: nat)
      modifies this
      ensures loops == Applied(old(loops), target)
    {
      while |loops| < target
        invariant |old(loops)| <= |loops|
        invariant |loops| == |old(loops)| || |loops| <= target
        invariant forall i :: 0 <= i < |loops| ==> loops[i] == (i < |old(loops)| && old(loops)[i])
      {
        loops := loops + [false];
      }
      var i := |loops|;
      ghost var grown := loops;
      while i > target
        invariant 0 <= i <= |loops| == |grown| && (i >= target || i == |loops|)
        invariant forall k :: 0 <= k < |loops| ==> loops[k] == (k >= i || grown[k])
      {
        i := i - 1;
        loops := loops[i := true];
      }
    }

    method End(i: nat)
      requires i < |loops| && loops[i]
      modifies this
      ensures loops == Ended(old(loops), i)
    {
      loops := loops[..i] + loops[i + 1..];
    }
  }

  // ----- How many loops poll -----

  lemma {:induction false} UnmarkedAppend(a: Loops, b: Loops)
    ensures Unmarked(a + b) == Unmarked(a) + Unmarked(b)
    decreases |b|
  {
    if b == [] {
      assert a + b == a;
    } else {
      UnmarkedAppend(a, b[..|b| - 1]);
      assert (a + b)[..|a + b| - 1] == a + b[..|b| - 1];
    }
  }

  lemma {:induction false} AllAlike(loops: Loops, marked: bool)
    requires forall i :: 0 <= i < |loops| ==> loops[i] == marked
    ensures Unmarked(loops) == if marked then 0 else |loops|
    decreases |loops|
  {
    if loops != [] {
      AllAlike(loops[..|loops| - 1], marked);
    }
  }

  /** The loops among the first `target` that are on their way out. */
  function Leaving(loops: Loops, target: nat): (n: nat)
    ensures n <= target
  {
    var kept := if target < |loops| then loops[..target] else loops;
    |kept| - Unmarked(kept)
  }

  /** After a change as many loops poll as were asked for, short of those already on their way out. */
  lemma AppliedPolls(loops: Loops, target: nat)
    ensures Unmarked(Applied(loops, target)) == target - Leaving(loops, target)
  {
    var r := Applied(loops, target);
    if target < |loops| {
      assert r == loops[..target] + r[target..];
      UnmarkedAppend(loops[..target], r[target..]);
      AllAlike(r[target..], true);
    } else {
      assert r == loops + r[|loops|..];
      UnmarkedAppend(loops, r[|loops|..]);
      AllAlike(r[|loops|..], false);
    }
  }

  lemma EndingKeepsPolling(loops: Loops, i: nat)
    requires i < |loops| && loops[i]
    ensures Unmarked(Ended(loops, i)) == Unmarked(loops) && |Ended(loops, i)| == |loops| - 1
  {
    assert loops == loops[..i] + ([loops[i]] + loops[i + 1..]);
    UnmarkedAppend(loops[..i], [loops[i]] + loops[i + 1..]);
    UnmarkedAppend([loops[i]], loops[i + 1..]);
    UnmarkedAppend(loops[..i], loops[i + 1..]);
    AllAlike([loops[i]], true);
  }

  // ----- Runs -----

  datatype Step = Apply(target: nat) | End(i: nat)

  predicate Enabled(loops: Loops, step: Step) {
    step.End? ==> step.i < |loops| && loops[step.i]
  }

  function After(loops: Loops, step: Step): Loops
    requires Enabled(loops, step)
  {
    match step
    case Apply(target) => Applied(loops, target)
    case End(i) => Ended(loops, i)
  }

  predicate Run(steps: seq<Step>)
    decreases |steps|, 0
  {
    steps == [] || (Run(steps[..|steps| - 1]) && Enabled(Exec(steps[..|steps| - 1]), steps[|steps| - 1]))
  }

  function Exec(steps: seq<Step>): Loops
    requires Run(steps)
    decreases |steps|, 1
  {
    if steps == [] then [] else After(Exec(steps[..|steps| - 1]), steps[|steps| - 1])
  }

  /** The concurrency last asked for. */
  function Target(steps: seq<Step>): nat {
    if steps == [] then 0
    else if steps[|steps| - 1].Apply? then steps[|steps| - 1].target
    else Target(steps[..|steps| - 1])
  }

  /** The loops missing since the last change: those that were on their way out when it came. */
  function Missing(steps: seq<Step>): nat
    requires Run(steps)
  {
    if steps == [] then 0
    else
      var before := steps[..|steps| - 1];
      match steps[|steps| - 1]
      case Apply(target) => Leaving(Exec(before), target)
      case End(_) => Missing(before)
  }

  /**
    * However tasks end and the setting changes, no more loops poll than were last asked for;
    * the ones missing are those that were already leaving at the last change, and nothing brings
    * them back before the next. There are never more loops than the highest setting allowed.
    */
  lemma {:induction false} PollingFollowsTarget(steps: seq<Step>, highest: nat)
    requires Run(steps) && forall step <- steps :: step.Apply? ==> step.target <= highest
    ensures Unmarked(Exec(steps)) + Missing(steps) == Target(steps)
    ensures |Exec(steps)| <= highest
    decreases |steps|
  {
    if steps != [] {
      var before, last := steps[..|steps| - 1], steps[|steps| - 1];
      PollingFollowsTarget(before, highest);
      match last
      case Apply(target) => AppliedPolls(Exec(before), target);
      case End(i) => EndingKeepsPolling(Exec(before), i);
    }
  }

  lemma RunSnoc(steps: seq<Step>, step: Step)
    requires Run(steps) && Enabled(Exec(steps), step)
    ensures Run(steps + [step]) && Exec(steps + [step]) == After(Exec(steps), step)
    ensures Target(steps + [step]) == if step.Apply? then step.target else Target(steps)
  {
    assert (steps + [step])[..|steps|] == steps;
  }

  /** Shrinking and growing again before the marked loop has ended leaves one loop too few. */
  lemma ShrinkThenGrow() returns (steps: seq<Step>)
    ensures Run(steps) && Target(steps) == 2 && Unmarked(Exec(steps)) == 1 && |Exec(steps)| == 1
  {
    assert [] + [Apply(2)] == [Apply(2)];
    RunSnoc([], Apply(2));
    steps := [Apply(2)];
    RunSnoc(steps, Apply(1));
    steps := steps + [Apply(1)];
    RunSnoc(steps, Apply(2));
    steps := steps + [Apply(2)];
    assert Exec(steps) == [false, true];
    RunSnoc(steps, End(1));
    steps := steps + [End(1)];
    assert Exec(steps) == [false];
  }
}
