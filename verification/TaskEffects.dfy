/**
  * What each operation of the task store does to the tables, in terms of their columns, and that
  * its methods are the steps of the runs.
  */
module TaskEffects {
  import opened Wrappers
  import opened TaskDomain
  import opened Schema
  import opened TaskStore
  import opened TaskRuns

  /** Nothing but this task's row, and its log by one event at the end, differs. */
  predicate OneRowMoved(t: Tables, u: Tables, id: string, row: TaskRow, event: EventKind) {
    u == t.(tasks := t.tasks[id := row], taskEvents := t.taskEvents[id := LogOf(t, id) + [event]])
  }

  /** A task is made of a new payload, a new id and a known channel; otherwise at most the payload stays behind. */
  lemma CreationTells(t: Tables, id: string, ref: string, channelId: string, labelName: string, payload: string,
                      agent: Option<string>, threadId: Option<string>, now: int)
    ensures var Outcome(u, r) := Create(t, id, ref, channelId, labelName, payload, agent, threadId, now);
      var row := TaskRow(channelId, labelName, ref, Pending, agent, threadId, None, None, now);
      var logged := if agent.Some? && |agent.value| > 0 then agent else None;
      && (r == Ok(row) <==> ref !in t.payloads && id !in t.tasks && channelId in t.channels)
      && (r != Ok(row) ==>
            && r == Err(ConstraintViolation)
            && u == t.(payloads := if ref in t.payloads then t.payloads else t.payloads[ref := payload]))
      && (r == Ok(row) ==>
            OneRowMoved(t.(payloads := t.payloads[ref := payload]), u, id, row,
                        CreatedEvent(channelId, labelName, logged, threadId)))
  {}

  /** A claim takes a pending task of a listed label than which no such task is older. */
  lemma ClaimTells(t: Tables, labels: seq<string>, id: string, workerId: string, leaseSeconds: nat, now: int)
    ensures Oldest(t, labels, id) <==>
      && id in t.tasks && t.tasks[id].status == Pending && t.tasks[id].labelName in labels
      && forall x <- t.tasks :: t.tasks[x].status == Pending && t.tasks[x].labelName in labels ==>
           t.tasks[id].createdAt <= t.tasks[x].createdAt
    ensures Oldest(t, labels, id) ==>
      var lease := now + leaseSeconds * 1000;
      OneRowMoved(t, Claim(t, id, workerId, leaseSeconds, now), id,
                  t.tasks[id].(status := Claimed, workerId := Some(workerId), lease := Some(lease)),
                  ClaimedEvent(workerId, lease))
  {}

  /** Nothing is claimable exactly when no task of a listed label is pending. */
  lemma NothingToClaim(t: Tables, labels: seq<string>)
    ensures (forall id <- t.tasks :: !Claimable(t, labels, id)) <==>
      forall id <- t.tasks :: t.tasks[id].status == Pending ==> t.tasks[id].labelName !in labels
  {}

  /** From which statuses a report is accepted, and the status it leads to. */
  predicate ReportFits(status: TaskStatus, report: TaskReport, next: TaskStatus) {
    match report
    case StartedReport => status in {Claimed, Waiting} && next == Running
    case ResumedReport => status in {Claimed, Waiting} && next == Running
    case WaitingReport(_) => status in {Claimed, Running} && next == Waiting
    case RejectedReport(_) => status in {Claimed, Waiting} && next == Rejected
    case CompletedReport(_) => status == Running && next == Completed
    case FailedReport(_) => status in {Running, Waiting, Stalled} && next == Failed
  }

  /** For every status and report: accepted or not, and what an accepted report changes. */
  lemma ReportTells(t: Tables, id: string, report: TaskReport)
    ensures var Outcome(u, r) := Report(t, id, report);
      && (r.Ok? <==> id in t.tasks && exists next :: ReportFits(t.tasks[id].status, report, next))
      && (r.Err? ==>
            && u == t
            && r.error == if id !in t.tasks then TaskNotFound(id)
                          else InvalidTransition(t.tasks[id].status, ReportTarget(report)))
      && (r.Ok? ==>
            && ReportFits(t.tasks[id].status, report, r.value.status)
            && r.value == t.tasks[id].(status := r.value.status)
            && OneRowMoved(t, u, id, r.value, ReportedEvent(report)))
  {
    if Report(t, id, report).result.Ok? {
      assert ReportFits(t.tasks[id].status, report, ReportTarget(report));
    }
  }

  /** An agent is assigned to a pending task and to no other. */
  lemma AssignmentTells(t: Tables, id: string, agent: string)
    ensures var Outcome(u, r) := SetAgent(t, id, agent);
      && (r.Ok? <==> id in t.tasks && t.tasks[id].status == Pending)
      && (r.Err? ==>
            && u == t
            && r.error == if id !in t.tasks then TaskNotFound(id)
                          else TaskNotPending(id, t.tasks[id].status))
      && (r.Ok? ==>
            && r.value == t.tasks[id].(agent := Some(agent))
            && OneRowMoved(t, u, id, r.value, AgentAssignedEvent(agent)))
  {}

  /** A retry needs a stalled task, an abandonment one that is stalled, running or waiting; both free the worker. */
  lemma ResolutionTells(t: Tables, id: string, action: StalledAction)
    ensures var Outcome(u, r) := Resolve(t, id, action);
      var next := match action case Retry => Pending case Abandon => Failed;
      && (r.Ok? <==>
            && id in t.tasks
            && (action == Retry ==> t.tasks[id].status == Stalled)
            && (action == Abandon ==> t.tasks[id].status in {Running, Waiting, Stalled}))
      && (r.Err? ==>
            && u == t
            && r.error == if id !in t.tasks then TaskNotFound(id)
                          else InvalidTransition(t.tasks[id].status, next))
      && (r.Ok? ==>
            && r.value == t.tasks[id].(status := next, workerId := None, lease := None)
            && OneRowMoved(t, u, id, r.value, if action == Retry then RetriedEvent else AbandonedEvent))
  {}

  /** A restart of a worker stalls its claimed, running and waiting tasks, and nothing else. */
  lemma RecoveryTells(s: State, workerId: string)
    ensures var t, u := s.t, Apply(s, RecoverStep(workerId)).t;
      && u == t.(tasks := u.tasks, taskEvents := u.taskEvents) && u.tasks.Keys == t.tasks.Keys
      && (forall id <- u.tasks :: u.tasks[id].workerId == Some(workerId) ==>
            u.tasks[id].status != Claimed && u.tasks[id].status != Running && u.tasks[id].status != Waiting)
      && (forall id <- t.tasks ::
            if t.tasks[id].workerId == Some(workerId)
               && (t.tasks[id].status == Claimed || t.tasks[id].status == Running || t.tasks[id].status == Waiting)
            then NowStalled(t, u, id, true) else SameTask(t, u, id))
      && Apply(s, RecoverStep(workerId)).now == s.now
  {}

  /** A sweep stalls the claimed, running and waiting tasks whose lease lies strictly in the past, and nothing else. */
  lemma SweepTells(s: State)
    ensures var t, u := s.t, Apply(s, SweepStep).t;
      && u == t.(tasks := u.tasks, taskEvents := u.taskEvents) && u.tasks.Keys == t.tasks.Keys
      && (forall id <- t.tasks ::
            if (t.tasks[id].status == Claimed || t.tasks[id].status == Running || t.tasks[id].status == Waiting)
               && t.tasks[id].lease.Some? && t.tasks[id].lease.value < s.now
            then NowStalled(t, u, id, false) else SameTask(t, u, id))
      && Apply(s, SweepStep).now == s.now
  {}

  /** A heartbeat moves the lease of the worker's own listed waiting tasks, without a trace in the logs. */
  lemma ExtensionTells(s: State, workerId: string, ids: seq<string>, leaseSeconds: nat)
    ensures var t, u := s.t, Apply(s, ExtendStep(workerId, ids, leaseSeconds)).t;
      && u == t.(tasks := u.tasks) && u.tasks.Keys == t.tasks.Keys
      && (forall id <- t.tasks :: u.tasks[id] ==
            if t.tasks[id].workerId == Some(workerId) && t.tasks[id].status == Waiting && id in ids
            then t.tasks[id].(lease := Some(s.now + leaseSeconds * 1000)) else t.tasks[id])
      && Apply(s, ExtendStep(workerId, ids, leaseSeconds)).now == s.now
  {}

  // ----- The methods are the steps -----

  /**
    * Calls the method a step stands for. The claim chooses its task itself; when it finds none,
    * what has been done is to let no time pass.
    */
  method Perform(store: TaskStore, step: Step, now: int) returns (done: Step, later: int)
    modifies store.db
    ensures Enabled(State(old(store.db.Snapshot()), now), done)
    ensures State(store.db.Snapshot(), later) == Apply(State(old(store.db.Snapshot()), now), done)
    ensures !step.ClaimStep? ==> done == step
    ensures step.ClaimStep? ==>
      || (done.ClaimStep? && done == ClaimStep(done.id, step.workerId, step.labels, step.leaseSeconds))
      || (done == TickStep(0)
          && forall id <- old(store.db.tasks) :: !Claimable(old(store.db.Snapshot()), step.labels, id))
  {
    done, later := step, now;
    match step {
      case CreateStep(id, ref, channelId, labelName, payload, agent, threadId) =>
        var r := store.CreateTask(id, ref, channelId, labelName, payload, agent, threadId, now);
      case SetAgentStep(id, agent) =>
        var r := store.AssignAgent(id, agent);
      case ClaimStep(_, workerId, labels, leaseSeconds) =>
        var claimed := store.ClaimNext(workerId, labels, leaseSeconds, now);
        done := if claimed.Some? then ClaimStep(claimed.value, workerId, labels, leaseSeconds) else TickStep(0);
      case ReportStep(id, report) =>
        var r := store.ApplyReport(id, report);
      case ExtendStep(workerId, ids, leaseSeconds) =>
        var extended := store.ExtendWaitingLeases(workerId, ids, leaseSeconds, now);
      case SweepStep =>
        var n := store.SweepExpiredLeases(now);
      case RecoverStep(workerId) =>
        var ids := store.RecoverWorkerTasks(workerId);
      case ResolveStep(id, action) =>
        var r := store.ResolveStalled(id, action);
      case TickStep(ms) =>
        later := now + ms;
    }
  }
}
