/** The Task state machine: packages/task-domain/src/state-machine.ts. */
module TaskDomain {
  import opened Wrappers

  datatype TaskStatus = Pending | Claimed | Running | Waiting | Stalled | Rejected | Completed | Failed

  /** The transition table. Anything not listed is illegal. */
  function Transitions(from: TaskStatus): set<TaskStatus> {
    match from
    case Pending => {Claimed}
    case Claimed => {Running, Waiting, Rejected, Stalled}
    case Running => {Waiting, Completed, Failed, Stalled}
    case Waiting => {Running, Rejected, Failed, Stalled}
    case Stalled => {Pending, Failed}
    case Rejected => {}
    case Completed => {}
    case Failed => {}
  }

  predicate CanTransition(from: TaskStatus, to: TaskStatus) {
    to in Transitions(from)
  }

  const TERMINAL_STATUSES: set<TaskStatus> := {Rejected, Completed, Failed}

  predicate IsTerminal(status: TaskStatus) {
    status in TERMINAL_STATUSES
  }

  /** The statuses a lease covers. */
  predicate InFlight(status: TaskStatus) {
    status in {Claimed, Running, Waiting}
  }

  /** What a worker tells the control plane about a task. */
  datatype TaskReport =
    | RejectedReport(reason: string)
    | StartedReport
    | WaitingReport(question: string)
    | ResumedReport
    | CompletedReport(summary: Option<string>)
    | FailedReport(reason: string)

  function ReportTarget(report: TaskReport): TaskStatus {
    match report
    case RejectedReport(_) => Rejected
    case StartedReport => Running
    case WaitingReport(_) => Waiting
    case ResumedReport => Running
    case CompletedReport(_) => Completed
    case FailedReport(_) => Failed
  }

  /** The table read the other way: from where each status is reached, and that the terminal ones lead nowhere. */
  lemma TransitionsTell(from: TaskStatus, to: TaskStatus)
    ensures CanTransition(from, to) <==>
      match to
      case Pending => from == Stalled
      case Claimed => from == Pending
      case Running => from == Claimed || from == Waiting
      case Waiting => from == Claimed || from == Running
      case Stalled => from == Claimed || from == Running || from == Waiting
      case Rejected => from == Claimed || from == Waiting
      case Completed => from == Running
      case Failed => from == Running || from == Waiting || from == Stalled
    ensures IsTerminal(from) <==> forall next :: !CanTransition(from, next)
    ensures InFlight(from) <==> CanTransition(from, Stalled)
  {
    if !IsTerminal(from) {
      assert CanTransition(from, if from == Pending then Claimed else if from == Claimed then Running else Failed);
    }
  }

  /** A walk through the table, one status per step. */
  ghost predicate LegalPath(path: seq<TaskStatus>) {
    forall i :: 0 <= i < |path| - 1 ==> CanTransition(path[i], path[i + 1])
  }

  /**
    * The table's claim about redelivery: whichever way a walk leaves the in-flight
    * statuses and comes back to Claimed, it passes through Stalled and then Pending.
    */
  lemma {:induction false} BackToClaimedOnlyThroughStalled(path: seq<TaskStatus>)
    requires LegalPath(path) && |path| > 1
    requires path[0] != Pending && path[0] != Stalled && path[|path| - 1] == Claimed
    ensures exists i :: 0 < i < |path| - 2 && path[i] == Stalled && path[i + 1] == Pending
  {
    var i := |path| - 2;
    assert CanTransition(path[i], path[i + 1]);
    assert path[i] == Pending;
    assert i > 0;
    assert CanTransition(path[i - 1], path[i - 1 + 1]);
    assert path[i - 1] == Stalled;
  }
}
