/** How long a pending task can be passed over: claimNext takes an oldest row. */
module TaskFairness {
  import opened Wrappers
  import opened TaskDomain
  import opened Schema
  import opened TaskStore
  import opened TaskRuns

  /** The other claimable tasks that are not younger. */
  function Rivals(t: Tables, labels: seq<string>, id: string): set<string>
    requires id in t.tasks
  {
    set x <- t.tasks | x != id && Claimable(t, labels, x) && t.tasks[x].createdAt <= t.tasks[id].createdAt
  }

  ghost predicate Readmits(s: State, step: Step) {
    step.ResolveStep? && step.action == Retry && Resolve(s.t, step.id, Retry).result.Ok?
  }

  /** A task created in the very millisecond `id` was. */
  ghost predicate Ties(s: State, step: Step, id: string) {
    step.CreateStep? && id in s.t.tasks && s.now <= s.t.tasks[id].createdAt
  }

  ghost function Arrivals(s: State, steps: seq<Step>, id: string): nat
    requires Run(s, steps)
    decreases |steps|
  {
    if steps == [] then 0
    else
      var before := steps[..|steps| - 1];
      var step, mid := steps[|steps| - 1], Exec(s, before);
      Arrivals(s, before, id) + (if Readmits(mid, step) || Ties(mid, step, id) then 1 else 0)
  }

  ghost function RetriesIn(s: State, steps: seq<Step>): nat
    requires Run(s, steps)
    decreases |steps|
  {
    if steps == [] then 0
    else
      var before := steps[..|steps| - 1];
      RetriesIn(s, before) + (if Readmits(Exec(s, before), steps[|steps| - 1]) then 1 else 0)
  }

  /** A claim over the label set, listed in whatever order. */
  predicate IsClaimOver(step: Step, labels: seq<string>) {
    step.ClaimStep? && SetOf(step.labels) == SetOf(labels)
  }

  function ClaimsOver(steps: seq<Step>, labels: seq<string>): nat {
    if steps == [] then 0
    else
      var step := steps[|steps| - 1];
      ClaimsOver(steps[..|steps| - 1], labels) + (if IsClaimOver(step, labels) then 1 else 0)
  }

  predicate Takes(step: Step, id: string) {
    step.ClaimStep? && step.id == id
  }

  /** A pending task that no claim takes stays as it is, up to its agent. */
  lemma PassedOver(s: State, step: Step, id: string)
    requires Enabled(s, step) && !Takes(step, id)
    requires id in s.t.tasks && s.t.tasks[id].status == Pending
    ensures id in Apply(s, step).t.tasks
    ensures Apply(s, step).t.tasks[id] == s.t.tasks[id].(agent := Apply(s, step).t.tasks[id].agent)
  {
    match step
    case SweepStep => StallSkips(s.t, ExpiredAt(s.t, s.now), false, id);
    case RecoverStep(workerId) => StallSkips(s.t, HeldBy(s.t, workerId), true, id);
    case ExtendStep(workerId, ids, _) => assert id !in WaitingAmong(s.t, workerId, ids);
    case ReportStep(_, _) => PendingMoves(s, step, id);
    case SetAgentStep(_, _) => PendingMoves(s, step, id);
    case ResolveStep(_, _) => PendingMoves(s, step, id);
    case _ =>
  }

  /** A pending task takes an agent, and no report or resolution. */
  lemma PendingMoves(s: State, step: Step, id: string)
    requires step.ReportStep? || step.SetAgentStep? || step.ResolveStep?
    requires id in s.t.tasks && s.t.tasks[id].status == Pending
    ensures id in Apply(s, step).t.tasks
    ensures Apply(s, step).t.tasks[id] == s.t.tasks[id].(agent := Apply(s, step).t.tasks[id].agent)
  {}

  /** What becomes claimable in a step was so before, was retried, or is new. */
  lemma ClaimableBefore(s: State, step: Step, labels: seq<string>, x: string)
    requires Enabled(s, step) && Claimable(Apply(s, step).t, labels, x)
    requires !(Readmits(s, step) && step.id == x)
    ensures if x in s.t.tasks
            then Claimable(s.t, labels, x) && s.t.tasks[x].createdAt == Apply(s, step).t.tasks[x].createdAt
            else step.CreateStep? && step.id == x && Apply(s, step).t.tasks[x].createdAt == s.now
  {}

  /** One step: a claim over the label set removes a rival, only a retry or a tie adds one. */
  lemma RivalsStep(s: State, step: Step, labels: seq<string>, id: string)
    requires Enabled(s, step) && !Takes(step, id)
    requires Claimable(s.t, labels, id)
    ensures Claimable(Apply(s, step).t, labels, id)
    ensures |Rivals(Apply(s, step).t, labels, id)| + (if IsClaimOver(step, labels) then 1 else 0)
         <= |Rivals(s.t, labels, id)| + (if Readmits(s, step) || Ties(s, step, id) then 1 else 0)
  {
    PassedOver(s, step, id);
    var before, after := Rivals(s.t, labels, id), Rivals(Apply(s, step).t, labels, id);
    if Readmits(s, step) || Ties(s, step, id) {
      forall x | x in after && x != step.id ensures x in before {
        ClaimableBefore(s, step, labels, x);
      }
      assert after <= before + {step.id};
      PartAndRest(after, before + {step.id});
    } else {
      forall x | x in after ensures x in before {
        ClaimableBefore(s, step, labels, x);
      }
      if IsClaimOver(step, labels) {
        SameLabels(s.t, step.labels, labels);
        assert step.id in before && step.id !in after;
        PartAndRest(after, before - {step.id});
      } else {
        PartAndRest(after, before);
      }
    }
  }

  lemma SameLabels(t: Tables, a: seq<string>, b: seq<string>)
    requires SetOf(a) == SetOf(b)
    ensures forall id :: Claimable(t, a, id) == Claimable(t, b, id)
  {
    forall id ensures Claimable(t, a, id) == Claimable(t, b, id) {
      if id in t.tasks {
        assert t.tasks[id].labelName in a <==> t.tasks[id].labelName in SetOf(a);
        assert t.tasks[id].labelName in b <==> t.tasks[id].labelName in SetOf(b);
      }
    }
  }

  /** A set and what it lacks of a larger one add up. */
  lemma PartAndRest<T>(part: set<T>, whole: set<T>)
    requires part <= whole
    ensures |whole| == |part| + |whole - part|
  {
    assert part + (whole - part) == whole;
  }

  /** Over a run that never takes `id`: claims are paid for by rivals, retries and ties. */
  lemma {:induction false} OvertakingBalance(s: State, steps: seq<Step>, labels: seq<string>, id: string)
    requires Run(s, steps) && Claimable(s.t, labels, id)
    requires forall i :: 0 <= i < |steps| ==> !Takes(steps[i], id)
    ensures Claimable(Exec(s, steps).t, labels, id)
    ensures ClaimsOver(steps, labels) + |Rivals(Exec(s, steps).t, labels, id)|
         <= |Rivals(s.t, labels, id)| + Arrivals(s, steps, id)
    decreases |steps|
  {
    if steps != [] {
      var before, step := steps[..|steps| - 1], steps[|steps| - 1];
      OvertakingBalance(s, before, labels, id);
      RivalsStep(Exec(s, before), step, labels, id);
    }
  }

  lemma ClockMoves(s: State, step: Step)
    requires Enabled(s, step)
    ensures s.now <= Apply(s, step).now
  {}

  /** Later creations are younger, so once the clock has moved on only retries add rivals. */
  lemma {:induction false} ArrivalsAreRetries(s: State, steps: seq<Step>, id: string)
    requires Run(s, steps) && id in s.t.tasks && s.t.tasks[id].status == Pending
    requires s.t.tasks[id].createdAt < s.now
    requires forall i :: 0 <= i < |steps| ==> !Takes(steps[i], id)
    ensures id in Exec(s, steps).t.tasks && Exec(s, steps).t.tasks[id].status == Pending
    ensures Exec(s, steps).t.tasks[id].createdAt < Exec(s, steps).now
    ensures Arrivals(s, steps, id) == RetriesIn(s, steps)
    decreases |steps|
  {
    if steps != [] {
      var before, step := steps[..|steps| - 1], steps[|steps| - 1];
      ArrivalsAreRetries(s, before, id);
      PassedOver(Exec(s, before), step, id);
      ClockMoves(Exec(s, before), step);
    }
  }

  /**
    * Bounded overtaking. Once the clock has moved past its creation, a pending task with k
    * rivals is taken by the time k + 1 claims over its label set have succeeded, plus one for
    * each retry in between, whatever else the run does.
    */
  lemma BoundedOvertaking(s: State, steps: seq<Step>, labels: seq<string>, id: string)
    requires Run(s, steps) && Claimable(s.t, labels, id)
    requires s.t.tasks[id].createdAt < s.now
    requires ClaimsOver(steps, labels) > |Rivals(s.t, labels, id)| + RetriesIn(s, steps)
    ensures exists i :: 0 <= i < |steps| && Takes(steps[i], id)
  {
    if !exists i :: 0 <= i < |steps| && Takes(steps[i], id) {
      OvertakingBalance(s, steps, labels, id);
      ArrivalsAreRetries(s, steps, id);
    }
  }
}
