/** Runs of the task store: any sequence of its steps, with time passing between them. */
module TaskRuns {
  import opened Wrappers
  import opened TaskDomain
  import opened Schema
  import opened TaskStore

  // ----- The step system -----

  datatype Step =
    | CreateStep(id: string, ref: string, channelId: string, labelName: string, payload: string,
                 agent: Option<string>, threadId: Option<string>)
    | SetAgentStep(id: string, agentName: string)
    | ClaimStep(id: string, workerId: string, labels: seq<string>, leaseSeconds: nat)
    | ReportStep(id: string, report: TaskReport)
    | ExtendStep(workerId: string, ids: seq<string>, leaseSeconds: nat)
    | SweepStep
    | RecoverStep(workerId: string)
    | ResolveStep(id: string, action: StalledAction)
    | TickStep(ms: nat)

  /** The tables and the clock. */
  datatype State = State(t: Tables, now: int)

  /** A claim may take any row that is among the oldest. */
  ghost predicate Enabled(s: State, step: Step) {
    step.ClaimStep? ==> Oldest(s.t, step.labels, step.id)
  }

  /** A step that throws leaves the tables as its Outcome says. */
  ghost function Apply(s: State, step: Step): State
    requires Enabled(s, step)
  {
    match step
    case CreateStep(id, ref, channelId, labelName, payload, agent, threadId) =>
      s.(t := Create(s.t, id, ref, channelId, labelName, payload, agent, threadId, s.now).tables)
    case SetAgentStep(id, agent) => s.(t := SetAgent(s.t, id, agent).tables)
    case ClaimStep(id, workerId, _, leaseSeconds) => s.(t := Claim(s.t, id, workerId, leaseSeconds, s.now))
    case ReportStep(id, report) => s.(t := Report(s.t, id, report).tables)
    case ExtendStep(workerId, ids, leaseSeconds) =>
      s.(t := Extend(s.t, WaitingAmong(s.t, workerId, ids), s.now + 1000 * leaseSeconds))
    case SweepStep => s.(t := StallAll(s.t, ExpiredAt(s.t, s.now), false))
    case RecoverStep(workerId) => s.(t := StallAll(s.t, HeldBy(s.t, workerId), true))
    case ResolveStep(id, action) => s.(t := Resolve(s.t, id, action).tables)
    case TickStep(ms) => s.(now := s.now + ms)
  }

  ghost predicate Run(s: State, steps: seq<Step>)
    decreases |steps|, 0
  {
    steps == [] ||
    (Run(s, steps[..|steps| - 1]) && Enabled(Exec(s, steps[..|steps| - 1]), steps[|steps| - 1]))
  }

  ghost function Exec(s: State, steps: seq<Step>): State
    requires Run(s, steps)
    decreases |steps|, 1
  {
    if steps == [] then s else Apply(Exec(s, steps[..|steps| - 1]), steps[|steps| - 1])
  }

  lemma RunSnoc(s: State, steps: seq<Step>, step: Step)
    requires Run(s, steps) && Enabled(Exec(s, steps), step)
    ensures Run(s, steps + [step]) && Exec(s, steps + [step]) == Apply(Exec(s, steps), step)
  {
    assert (steps + [step])[..|steps|] == steps;
  }

  // ----- Reading an audit log -----

  /** What a log says about its task. */
  datatype View = View(status: TaskStatus, workerId: Option<string>, agent: Option<string>)

  function ReplayEvent(v: View, e: EventKind): View {
    match e
    case CreatedEvent(_, _, agent, _) => View(Pending, None, agent)
    case ClaimedEvent(workerId, _) => v.(status := Claimed, workerId := Some(workerId))
    case ReportedEvent(report) => v.(status := ReportTarget(report))
    case AgentAssignedEvent(agent) => v.(agent := Some(agent))
    case RetriedEvent => v.(status := Pending, workerId := None)
    case AbandonedEvent => v.(status := Failed, workerId := None)
    case StalledEvent(_, _) => v.(status := Stalled)
  }

  function Replay(log: seq<EventKind>): View {
    if log == [] then View(Pending, None, None) else ReplayEvent(Replay(log[..|log| - 1]), log[|log| - 1])
  }

  /** May `e` come after `log`: the first event creates, each later one is a move of the table. */
  predicate LegalNext(log: seq<EventKind>, e: EventKind) {
    if log == [] then e.CreatedEvent?
    else
      var from := Replay(log).status;
      match e
      case CreatedEvent(_, _, _, _) => false
      case AgentAssignedEvent(_) => from == Pending
      case StalledEvent(recorded, _) => recorded == from && CanTransition(from, Stalled)
      case RetriedEvent => from == Stalled && CanTransition(from, Pending)
      case AbandonedEvent => CanTransition(from, Failed)
      case _ => CanTransition(from, ReplayEvent(Replay(log), e).status)
  }

  predicate LegalLog(log: seq<EventKind>) {
    |log| > 0 && LegalNext(log[..|log| - 1], log[|log| - 1]) && (|log| > 1 ==> LegalLog(log[..|log| - 1]))
  }

  function Assigned(log: seq<EventKind>): bool {
    log != [] && (log[|log| - 1].AgentAssignedEvent? || Assigned(log[..|log| - 1]))
  }

  /**
    * How often a log records each kind of hand-over. Apart from the rest, `liveAbandons`
    * counts abandonments of tasks that had not stalled, and `lateFailures` the failure
    * reports that arrived after the task had stalled.
    */
  datatype Tally = Tally(claims: nat, retries: nat, stalls: nat, abandons: nat,
                         liveAbandons: nat, lateFailures: nat)

  function TallyEvent(c: Tally, from: TaskStatus, e: EventKind): Tally {
    match e
    case ClaimedEvent(_, _) => c.(claims := c.claims + 1)
    case RetriedEvent => c.(retries := c.retries + 1)
    case StalledEvent(_, _) => c.(stalls := c.stalls + 1)
    case AbandonedEvent =>
      c.(abandons := c.abandons + 1, liveAbandons := c.liveAbandons + if from == Stalled then 0 else 1)
    case ReportedEvent(_) => c.(lateFailures := c.lateFailures + if from == Stalled then 1 else 0)
    case _ => c
  }

  function TallyOf(log: seq<EventKind>): Tally {
    if log == [] then Tally(0, 0, 0, 0, 0, 0)
    else TallyEvent(TallyOf(log[..|log| - 1]), Replay(log[..|log| - 1]).status, log[|log| - 1])
  }

  // ----- The invariant -----

  /** A row and its log agree. */
  predicate TaskOk(row: TaskRow, log: seq<EventKind>) {
    && LegalLog(log)
    && Replay(log).status == row.status
    && Replay(log).workerId == row.workerId
    && Replay(log).agent == (if Assigned(log) then row.agent else Logged(row.agent))
    && (InFlight(row.status) ==> row.workerId.Some? && row.lease.Some?)
    && (row.status == Pending ==> row.workerId.None? && row.lease.None?)
  }

  ghost predicate AuditOk(t: Tables) {
    && t.taskEvents.Keys == t.tasks.Keys
    && (forall id <- t.tasks :: TaskOk(t.tasks[id], t.taskEvents[id]))
  }

  /** Each task has a payload of its own. */
  ghost predicate PayloadsOk(t: Tables) {
    && (forall id <- t.tasks :: t.tasks[id].payloadRef in t.payloads)
    && (forall a, b :: a in t.tasks && b in t.tasks && t.tasks[a].payloadRef == t.tasks[b].payloadRef ==> a == b)
  }

  ghost predicate Consistent(t: Tables) {
    AuditOk(t) && PayloadsOk(t)
  }

  /** One more event on a log that stays legal, and what it replays to. */
  lemma AppendToLog(log: seq<EventKind>, e: EventKind)
    ensures LegalLog(log + [e]) <==> LegalNext(log, e) && (log == [] || LegalLog(log))
    ensures Replay(log + [e]) == ReplayEvent(Replay(log), e)
    ensures Assigned(log + [e]) == (e.AgentAssignedEvent? || Assigned(log))
    ensures TallyOf(log + [e]) == TallyEvent(TallyOf(log), Replay(log).status, e)
  {
    assert (log + [e])[..|log|] == log;
  }

  /** A legal event keeps a row and its log in agreement when the row moves as the event says. */
  lemma TaskOkAfter(row: TaskRow, log: seq<EventKind>, next: TaskRow, e: EventKind)
    requires TaskOk(row, log) && LegalNext(log, e)
    requires ReplayEvent(View(row.status, row.workerId, row.agent), e)
          == View(next.status, next.workerId, next.agent)
    requires InFlight(next.status) ==> next.workerId.Some? && next.lease.Some?
    requires next.status == Pending ==> next.workerId.None? && next.lease.None?
    ensures TaskOk(next, log + [e])
  {
    AppendToLog(log, e);
  }

  /** An accepted report, assignment or resolution is legal for the log it goes on. */
  lemma AcceptedMovesOk(row: TaskRow, log: seq<EventKind>, m: RowChange)
    requires TaskOk(row, log)
    requires (exists report :: ReportMove(row, report) == Ok(m))
          || (exists id, agent :: SetAgentMove(id, row, agent) == Ok(m))
          || (exists action :: ResolveMove(row, action) == Ok(m))
    ensures TaskOk(m.row, log + [m.kind])
  {
    TaskOkAfter(row, log, m.row, m.kind);
  }

  lemma AuditKept(t: Tables, u: Tables, id: string, row: TaskRow, log: seq<EventKind>)
    requires AuditOk(t) && TaskOk(row, log)
    requires u.tasks == t.tasks[id := row] && u.taskEvents == t.taskEvents[id := log]
    ensures AuditOk(u)
  {}

  lemma PayloadsKept(t: Tables, u: Tables)
    requires PayloadsOk(t) && t.payloads.Keys <= u.payloads.Keys && u.tasks.Keys == t.tasks.Keys
    requires forall id <- t.tasks :: u.tasks[id].payloadRef == t.tasks[id].payloadRef
    ensures PayloadsOk(u)
  {}

  lemma RecordKeepsAudit(t: Tables, id: string, row: TaskRow, kind: EventKind)
    requires AuditOk(t) && id in t.tasks && TaskOk(row, t.taskEvents[id] + [kind])
    ensures AuditOk(Record(t, id, row, kind))
  {
    AuditKept(t, Record(t, id, row, kind), id, row, t.taskEvents[id] + [kind]);
  }

  lemma RecordKeepsPayloads(t: Tables, id: string, row: TaskRow, kind: EventKind)
    requires PayloadsOk(t) && id in t.tasks && row.payloadRef == t.tasks[id].payloadRef
    ensures PayloadsOk(Record(t, id, row, kind))
  {
    PayloadsKept(t, Record(t, id, row, kind));
  }

  lemma RecordKeeps(t: Tables, id: string, row: TaskRow, kind: EventKind)
    requires Consistent(t) && id in t.tasks && row.payloadRef == t.tasks[id].payloadRef
    requires TaskOk(row, t.taskEvents[id] + [kind])
    ensures Consistent(Record(t, id, row, kind))
  {
    RecordKeepsAudit(t, id, row, kind);
    RecordKeepsPayloads(t, id, row, kind);
  }

  lemma AcceptedMoveKeeps(t: Tables, id: string, move: Result<RowChange, StoreError>)
    requires Consistent(t) && id in t.tasks
    requires move.Ok? ==>
      || (exists report :: ReportMove(t.tasks[id], report) == move)
      || (exists agent :: SetAgentMove(id, t.tasks[id], agent) == move)
      || (exists action :: ResolveMove(t.tasks[id], action) == move)
    ensures Consistent(Moved(t, id, move).tables)
  {
    if move.Ok? {
      AcceptedMovesOk(t.tasks[id], t.taskEvents[id], move.value);
      RecordKeeps(t, id, move.value.row, move.value.kind);
    }
  }

  lemma ReportKeeps(t: Tables, id: string, report: TaskReport)
    requires Consistent(t)
    ensures Consistent(Report(t, id, report).tables)
  {
    if id in t.tasks {
      AcceptedMoveKeeps(t, id, ReportMove(t.tasks[id], report));
    }
  }

  lemma SetAgentKeeps(t: Tables, id: string, agent: string)
    requires Consistent(t)
    ensures Consistent(SetAgent(t, id, agent).tables)
  {
    if id in t.tasks {
      AcceptedMoveKeeps(t, id, SetAgentMove(id, t.tasks[id], agent));
    }
  }

  lemma ResolveKeeps(t: Tables, id: string, action: StalledAction)
    requires Consistent(t)
    ensures Consistent(Resolve(t, id, action).tables)
  {
    if id in t.tasks {
      AcceptedMoveKeeps(t, id, ResolveMove(t.tasks[id], action));
    }
  }

  lemma NewTaskOk(row: TaskRow)
    requires row.status == Pending && row.workerId == None && row.lease == None
    ensures TaskOk(row, [CreatedEvent(row.channelId, row.labelName, Logged(row.agent), row.threadId)])
  {
    var e := CreatedEvent(row.channelId, row.labelName, Logged(row.agent), row.threadId);
    AppendToLog([], e);
    assert [] + [e] == [e];
  }

  /** The new row, its one-event log and its payload. */
  lemma NewTaskKeeps(t: Tables, id: string, ref: string, payload: string, row: TaskRow)
    requires Consistent(t) && ref !in t.payloads && id !in t.tasks && row.payloadRef == ref
    requires row.status == Pending && row.workerId == None && row.lease == None
    ensures var e := CreatedEvent(row.channelId, row.labelName, Logged(row.agent), row.threadId);
      Consistent(Record(t.(payloads := t.payloads[ref := payload]), id, row, e))
  {
    var e := CreatedEvent(row.channelId, row.labelName, Logged(row.agent), row.threadId);
    var u := Record(t.(payloads := t.payloads[ref := payload]), id, row, e);
    NewTaskOk(row);
    assert LogOf(t, id) + [e] == [e];
    AuditKept(t, u, id, row, [e]);
    PayloadsInserted(t, u, id, ref, row);
  }

  lemma CreateKeeps(t: Tables, id: string, ref: string, channelId: string, labelName: string, payload: string,
                    agent: Option<string>, threadId: Option<string>, now: int)
    requires Consistent(t)
    ensures Consistent(Create(t, id, ref, channelId, labelName, payload, agent, threadId, now).tables)
  {
    if ref !in t.payloads {
      PayloadsKept(t, t.(payloads := t.payloads[ref := payload]));
      if id !in t.tasks {
        var row := TaskRow(channelId, labelName, ref, Pending, agent, threadId, None, None, now);
        NewTaskKeeps(t, id, ref, payload, row);
      }
    }
  }

  lemma PayloadsInserted(t: Tables, u: Tables, id: string, ref: string, row: TaskRow)
    requires PayloadsOk(t) && ref !in t.payloads && row.payloadRef == ref
    requires u.tasks == t.tasks[id := row] && u.payloads.Keys == t.payloads.Keys + {ref}
    ensures PayloadsOk(u)
  {}

  lemma StallAllKeeps(t: Tables, ids: set<string>, workerRestarted: bool)
    requires Consistent(t) && ids <= t.tasks.Keys
    requires forall id <- ids :: InFlight(t.tasks[id].status)
    ensures Consistent(StallAll(t, ids, workerRestarted))
  {
    StallKeepsAudit(t, ids, workerRestarted);
    PayloadsKept(t, StallAll(t, ids, workerRestarted));
  }

  lemma StallKeepsAudit(t: Tables, ids: set<string>, workerRestarted: bool)
    requires AuditOk(t) && ids <= t.tasks.Keys
    requires forall id <- ids :: InFlight(t.tasks[id].status)
    ensures AuditOk(StallAll(t, ids, workerRestarted))
  {
    var u := StallAll(t, ids, workerRestarted);
    forall id <- u.tasks ensures TaskOk(u.tasks[id], u.taskEvents[id]) {
      StalledRowOk(t, ids, workerRestarted, id);
    }
  }

  lemma StalledRowOk(t: Tables, ids: set<string>, workerRestarted: bool, id: string)
    requires AuditOk(t) && ids <= t.tasks.Keys && id in t.tasks
    requires forall id <- ids :: InFlight(t.tasks[id].status)
    ensures var u := StallAll(t, ids, workerRestarted);
      id in u.taskEvents && TaskOk(u.tasks[id], u.taskEvents[id])
  {
    var row, log := t.tasks[id], t.taskEvents[id];
    if id in ids {
      TaskOkAfter(row, log, row.(status := Stalled), StalledEvent(row.status, workerRestarted));
    }
  }

  lemma ExtendKeeps(t: Tables, rows: set<string>, until: int)
    requires Consistent(t)
    requires forall id <- rows :: id in t.tasks && t.tasks[id].status == Waiting
    ensures Consistent(Extend(t, rows, until))
  {
    var u := Extend(t, rows, until);
    PayloadsKept(t, u);
    forall id <- u.tasks ensures TaskOk(u.tasks[id], u.taskEvents[id]) {
      if id in rows {
        LongerLeaseOk(t.tasks[id], t.taskEvents[id], until);
      }
    }
  }

  lemma LongerLeaseOk(row: TaskRow, log: seq<EventKind>, until: int)
    requires TaskOk(row, log) && row.status == Waiting
    ensures TaskOk(row.(lease := Some(until)), log)
  {}

  lemma ClaimKeeps(t: Tables, id: string, workerId: string, leaseSeconds: nat, now: int)
    requires Consistent(t) && id in t.tasks && t.tasks[id].status == Pending
    ensures Consistent(Claim(t, id, workerId, leaseSeconds, now))
  {
    var m := ClaimMove(t.tasks[id], workerId, leaseSeconds, now);
    TaskOkAfter(t.tasks[id], t.taskEvents[id], m.row, m.kind);
    RecordKeeps(t, id, m.row, m.kind);
  }

  lemma BulkStepKeeps(s: State, step: Step)
    requires Consistent(s.t) && (step.ExtendStep? || step.SweepStep? || step.RecoverStep? || step.TickStep?)
    ensures Consistent(Apply(s, step).t)
  {
    if step.ExtendStep? {
      ExtendKeeps(s.t, WaitingAmong(s.t, step.workerId, step.ids), s.now + 1000 * step.leaseSeconds);
    } else if !step.TickStep? {
      StallStepKeeps(s, step);
    }
  }

  lemma StallStepKeeps(s: State, step: Step)
    requires Consistent(s.t) && (step.SweepStep? || step.RecoverStep?)
    ensures Consistent(Apply(s, step).t)
  {
    if step.SweepStep? {
      StallAllKeeps(s.t, ExpiredAt(s.t, s.now), false);
    } else {
      StallAllKeeps(s.t, HeldBy(s.t, step.workerId), true);
    }
  }

  /** Every step keeps every row in agreement with its log, also those that never ask the table. */
  lemma StepKeepsConsistent(s: State, step: Step)
    requires Consistent(s.t) && Enabled(s, step)
    ensures Consistent(Apply(s, step).t)
  {
    var t := s.t;
    match step
    case CreateStep(id, ref, channelId, labelName, payload, agent, threadId) =>
      CreateKeeps(t, id, ref, channelId, labelName, payload, agent, threadId, s.now);
    case ClaimStep(id, workerId, _, leaseSeconds) => ClaimKeeps(t, id, workerId, leaseSeconds, s.now);
    case ReportStep(id, report) => ReportKeeps(t, id, report);
    case SetAgentStep(id, agent) => SetAgentKeeps(t, id, agent);
    case ResolveStep(id, action) => ResolveKeeps(t, id, action);
    case _ => BulkStepKeeps(s, step);
  }

  lemma {:induction false} RunKeepsConsistent(s: State, steps: seq<Step>)
    requires Consistent(s.t) && Run(s, steps)
    ensures Consistent(Exec(s, steps).t)
    decreases |steps|
  {
    if steps != [] {
      RunKeepsConsistent(s, steps[..|steps| - 1]);
      StepKeepsConsistent(Exec(s, steps[..|steps| - 1]), steps[|steps| - 1]);
    }
  }

  // ----- What the audit log proves -----

  /** A database without tasks: where runs start. */
  ghost predicate Fresh(s: State) {
    s.t.tasks == map[] && s.t.taskEvents == map[] && s.t.payloads == map[]
  }

  lemma FreshIsConsistent(s: State)
    requires Fresh(s)
    ensures Consistent(s.t)
  {}

  /**
    * In every run from a fresh database, or another consistent one, the log of each task starts
    * with its creation, every later event is a move of the transition table, and replaying it
    * gives the stored status and worker. It gives the stored agent exactly when the row does not
    * still carry the empty agent name it was created with.
    */
  lemma AuditTrailIsComplete(s: State, steps: seq<Step>, id: string)
    requires Consistent(s.t) && Run(s, steps) && id in Exec(s, steps).t.tasks
    ensures id in Exec(s, steps).t.taskEvents
    ensures var row, log := Exec(s, steps).t.tasks[id], Exec(s, steps).t.taskEvents[id];
      && LegalLog(log)
      && Replay(log).status == row.status
      && Replay(log).workerId == row.workerId
      && (Replay(log).agent == row.agent <==> (row.agent == Some("") ==> Assigned(log)))
  {
    RunKeepsConsistent(s, steps);
  }

  /** The statuses a log passes through. */
  function Statuses(log: seq<EventKind>): seq<TaskStatus> {
    if log == [] then []
    else
      var before := Statuses(log[..|log| - 1]);
      if log[|log| - 1].AgentAssignedEvent? then before else before + [Replay(log).status]
  }

  /** A legal log's statuses are a walk through the table that begins at Pending and ends where it replays to. */
  lemma {:induction false} LegalLogIsAPath(log: seq<EventKind>)
    requires LegalLog(log)
    ensures var path := Statuses(log);
      path != [] && LegalPath(path) && path[0] == Pending && path[|path| - 1] == Replay(log).status
    decreases |log|
  {
    var n := |log| - 1;
    if n > 0 {
      LegalLogIsAPath(log[..n]);
      var before := Statuses(log[..n]);
      if !log[n].AgentAssignedEvent? {
        var path := before + [Replay(log).status];
        forall i | 0 <= i < |path| - 1 ensures CanTransition(path[i], path[i + 1]) {
          if i < |before| - 1 {
            assert CanTransition(before[i], before[i + 1]);
          }
        }
      }
    } else {
      assert log[..n] == [];
    }
  }

  /**
    * Nothing is delivered again without a person: each claim after the first answers a retry.
    * A stall is left by a retry, by an abandonment, or by a failure report that came late.
    */
  lemma {:induction false} DeliveriesBalance(log: seq<EventKind>)
    requires LegalLog(log)
    ensures var c := TallyOf(log);
      && c.claims == c.retries + (if Replay(log).status == Pending then 0 else 1)
      && c.stalls + c.liveAbandons
         == c.retries + c.abandons + c.lateFailures + (if Replay(log).status == Stalled then 1 else 0)
    decreases |log|
  {
    var n := |log| - 1;
    if n > 0 {
      DeliveriesBalance(log[..n]);
    } else {
      assert log[..n] == [];
    }
  }

  /**
    * The log ends in one of the two moves that go around the person a stalled task waits for: a
    * task that had not stalled is abandoned, or a stalled one still reports.
    */
  predicate EndsAround(log: seq<EventKind>) {
    log != [] &&
    var from, last := Replay(log[..|log| - 1]).status, log[|log| - 1];
    (last.AbandonedEvent? && from != Stalled) || (last.ReportedEvent? && from == Stalled)
  }

  /** Both end the task, so a log has at most one of them, as its last event. */
  lemma {:induction false} AroundOnlyOnce(log: seq<EventKind>)
    requires LegalLog(log)
    ensures var c := TallyOf(log); c.liveAbandons + c.lateFailures == if EndsAround(log) then 1 else 0
    ensures EndsAround(log) ==> Replay(log).status == Failed
    decreases |log|
  {
    var n := |log| - 1;
    if n > 0 {
      AroundOnlyOnce(log[..n]);
    } else {
      assert log[..n] == [];
    }
  }

  /**
    * The same over runs, for every task. Claims always match retries. A stalled task waits for a
    * person, so that stalls match retries and abandonments, exactly when the last thing that
    * happened to the task was neither its abandonment while it had not stalled nor a report that
    * came after it had.
    */
  lemma NothingIsRedeliveredAlone(s: State, steps: seq<Step>, id: string)
    requires Consistent(s.t) && Run(s, steps) && id in Exec(s, steps).t.tasks
    ensures id in Exec(s, steps).t.taskEvents
    ensures var row, log := Exec(s, steps).t.tasks[id], Exec(s, steps).t.taskEvents[id];
      var c := TallyOf(log);
      && c.claims == c.retries + (if row.status == Pending then 0 else 1)
      && (c.stalls == c.retries + c.abandons + (if row.status == Stalled then 1 else 0) <==> !EndsAround(log))
  {
    AuditTrailIsComplete(s, steps, id);
    DeliveriesBalance(Exec(s, steps).t.taskEvents[id]);
    AroundOnlyOnce(Exec(s, steps).t.taskEvents[id]);
  }

  /**
    * Resolving is meant for stalled tasks. A retry is accepted only there, but an abandonment
    * wherever the table allows failing; and a stalled task still accepts one report, failed.
    */
  lemma StalledGateIsPorous(t: Tables, id: string, report: TaskReport)
    requires id in t.tasks
    ensures Resolve(t, id, Retry).result.Ok? <==> t.tasks[id].status == Stalled
    ensures Resolve(t, id, Abandon).result.Ok? <==> t.tasks[id].status in {Stalled, Running, Waiting}
    ensures t.tasks[id].status == Stalled ==> (Report(t, id, report).result.Ok? <==> report.FailedReport?)
  {}

  // A channel, and one task on it that worker w has claimed and started.
  const DEMO_CHANNEL := ChannelRow("l", "k", Interpreter(Passthrough, None, 2000, 3600, []), FromApi, 0, None)
  const DEMO_START := State(Tables(map["c" := DEMO_CHANNEL], map[], map[], map[], map[], map[]), 0)
  const DEMO_LOG := [CreatedEvent("c", "l", None, None), ClaimedEvent("w", 600000), ReportedEvent(StartedReport)]

  function DemoState(row: TaskRow, log: seq<EventKind>): State {
    State(Tables(map["c" := DEMO_CHANNEL], map["p" := "do it"], map["t" := row], map["t" := log], map[], map[]), 0)
  }

  function DemoRow(status: TaskStatus): TaskRow {
    TaskRow("c", "l", "p", status, None, None, Some("w"), Some(600000), 0)
  }

  lemma DemoLog()
    ensures Replay(DEMO_LOG).status == Running && TallyOf(DEMO_LOG) == Tally(1, 0, 0, 0, 0, 0)
  {
    var e0, e1, e2 := DEMO_LOG[0], DEMO_LOG[1], DEMO_LOG[2];
    assert [] + [e0] == [e0] && [e0] + [e1] + [e2] == DEMO_LOG;
    AppendToLog([], e0);
    AppendToLog([e0], e1);
    AppendToLog([e0] + [e1], e2);
  }

  lemma DemoClaim()
    ensures var s := DemoState(TaskRow("c", "l", "p", Pending, None, None, None, None, 0), DEMO_LOG[..1]);
      var claim := ClaimStep("t", "w", ["l"], 600);
      Enabled(s, claim) && Apply(s, claim) == DemoState(DemoRow(Claimed), DEMO_LOG[..2])
  {
    assert DEMO_LOG[..1] + [DEMO_LOG[1]] == DEMO_LOG[..2];
  }

  lemma DemoStart()
    ensures var s := DemoState(DemoRow(Claimed), DEMO_LOG[..2]);
      Apply(s, ReportStep("t", StartedReport)) == DemoState(DemoRow(Running), DEMO_LOG)
  {
    assert DEMO_LOG[..2] + [DEMO_LOG[2]] == DEMO_LOG;
  }

  lemma DemoStall()
    ensures var s := DemoState(DemoRow(Running), DEMO_LOG);
      Apply(s, RecoverStep("w")) == DemoState(DemoRow(Stalled), DEMO_LOG + [StalledEvent(Running, true)])
  {
    var s := DemoState(DemoRow(Running), DEMO_LOG);
    assert HeldBy(s.t, "w") == {"t"};
    assert StalledRows(s.t, {"t"}) == map["t" := DemoRow(Stalled)];
    assert StalledLogs(s.t, {"t"}, true) == map["t" := DEMO_LOG + [StalledEvent(Running, true)]];
  }

  lemma DemoRun() returns (steps: seq<Step>)
    ensures Run(DEMO_START, steps) && Exec(DEMO_START, steps) == DemoState(DemoRow(Running), DEMO_LOG)
  {
    var create := CreateStep("t", "p", "c", "l", "do it", None, None);
    var claim := ClaimStep("t", "w", ["l"], 600);
    var started := ReportStep("t", StartedReport);
    var s1 := DemoState(TaskRow("c", "l", "p", Pending, None, None, None, None, 0), DEMO_LOG[..1]);
    assert [] + [DEMO_LOG[0]] == DEMO_LOG[..1];
    assert Apply(DEMO_START, create) == s1;
    DemoClaim();
    DemoStart();
    RunSnoc(DEMO_START, [], create);
    RunSnoc(DEMO_START, [] + [create], claim);
    RunSnoc(DEMO_START, [] + [create] + [claim], started);
    steps := [] + [create] + [claim] + [started];
  }

  lemma DemoAbandon()
    ensures var s := DemoState(DemoRow(Running), DEMO_LOG);
      var row := DemoRow(Failed).(workerId := None, lease := None);
      Apply(s, ResolveStep("t", Abandon)) == DemoState(row, DEMO_LOG + [AbandonedEvent])
  {}

  /** A run in which a running task is abandoned: one abandonment, no stall. */
  lemma RunningTaskAbandoned() returns (steps: seq<Step>)
    ensures Fresh(DEMO_START) && Consistent(DEMO_START.t) && Run(DEMO_START, steps)
    ensures "t" in Exec(DEMO_START, steps).t.taskEvents
    ensures TallyOf(Exec(DEMO_START, steps).t.taskEvents["t"]) == Tally(1, 0, 0, 1, 1, 0)
  {
    FreshIsConsistent(DEMO_START);
    var before := DemoRun();
    DemoAbandon();
    RunSnoc(DEMO_START, before, ResolveStep("t", Abandon));
    steps := before + [ResolveStep("t", Abandon)];
    DemoAbandonedLog();
  }

  lemma DemoAbandonedLog()
    ensures TallyOf(DEMO_LOG + [AbandonedEvent]) == Tally(1, 0, 0, 1, 1, 0)
  {
    DemoLog();
    AppendToLog(DEMO_LOG, AbandonedEvent);
  }

  const DEMO_LATE := FailedReport("late")
  const DEMO_STALL := StalledEvent(Running, true)

  lemma DemoFailLate()
    ensures var s := DemoState(DemoRow(Stalled), DEMO_LOG + [DEMO_STALL]);
      Apply(s, ReportStep("t", DEMO_LATE))
      == DemoState(DemoRow(Failed), DEMO_LOG + [DEMO_STALL] + [ReportedEvent(DEMO_LATE)])
  {}

  lemma DemoLateRun() returns (steps: seq<Step>)
    ensures Run(DEMO_START, steps)
    ensures Exec(DEMO_START, steps) == DemoState(DemoRow(Failed), DEMO_LOG + [DEMO_STALL] + [ReportedEvent(DEMO_LATE)])
  {
    var before := DemoRun();
    DemoStall();
    RunSnoc(DEMO_START, before, RecoverStep("w"));
    DemoFailLate();
    RunSnoc(DEMO_START, before + [RecoverStep("w")], ReportStep("t", DEMO_LATE));
    steps := before + [RecoverStep("w")] + [ReportStep("t", DEMO_LATE)];
  }

  /** A run in which a stalled task is failed by the report of its old worker: one stall, nobody asked. */
  lemma StalledTaskFailedLate() returns (steps: seq<Step>)
    ensures Fresh(DEMO_START) && Consistent(DEMO_START.t) && Run(DEMO_START, steps)
    ensures "t" in Exec(DEMO_START, steps).t.taskEvents
    ensures TallyOf(Exec(DEMO_START, steps).t.taskEvents["t"]) == Tally(1, 0, 1, 0, 0, 1)
    ensures Replay(Exec(DEMO_START, steps).t.taskEvents["t"]).status == Failed
  {
    FreshIsConsistent(DEMO_START);
    steps := DemoLateRun();
    DemoLateLog();
  }

  lemma DemoLateLog()
    ensures var log := DEMO_LOG + [DEMO_STALL] + [ReportedEvent(DEMO_LATE)];
      TallyOf(log) == Tally(1, 0, 1, 0, 0, 1) && Replay(log).status == Failed
  {
    DemoLog();
    AppendToLog(DEMO_LOG, DEMO_STALL);
    AppendToLog(DEMO_LOG + [DEMO_STALL], ReportedEvent(DEMO_LATE));
  }

  // ----- Rows that no longer change -----

  lemma TerminalRowsStay(s: State, step: Step, id: string)
    requires Enabled(s, step)
    requires id in s.t.tasks && IsTerminal(s.t.tasks[id].status)
    ensures id in Apply(s, step).t.tasks && Apply(s, step).t.tasks[id] == s.t.tasks[id]
    ensures LogOf(Apply(s, step).t, id) == LogOf(s.t, id)
  {
    match step
    case SweepStep => StallSkips(s.t, ExpiredAt(s.t, s.now), false, id);
    case RecoverStep(workerId) => StallSkips(s.t, HeldBy(s.t, workerId), true, id);
    case ExtendStep(workerId, ids, _) => assert id !in WaitingAmong(s.t, workerId, ids);
    case ReportStep(x, report) => RefusedWhenTerminal(s, step, id);
    case SetAgentStep(x, agent) => RefusedWhenTerminal(s, step, id);
    case ResolveStep(x, action) => RefusedWhenTerminal(s, step, id);
    case _ =>
  }

  /** A report, assignment or resolution of a terminal task is refused, and one of another task does not touch it. */
  lemma RefusedWhenTerminal(s: State, step: Step, id: string)
    requires step.ReportStep? || step.SetAgentStep? || step.ResolveStep?
    requires id in s.t.tasks && IsTerminal(s.t.tasks[id].status)
    ensures id in Apply(s, step).t.tasks && Apply(s, step).t.tasks[id] == s.t.tasks[id]
    ensures LogOf(Apply(s, step).t, id) == LogOf(s.t, id)
  {
    if step.id == id {
      assert Apply(s, step).t == s.t;
    }
  }

  lemma StallSkips(t: Tables, ids: set<string>, workerRestarted: bool, id: string)
    requires ids <= t.tasks.Keys && id in t.tasks && id !in ids
    ensures StallAll(t, ids, workerRestarted).tasks[id] == t.tasks[id]
    ensures LogOf(StallAll(t, ids, workerRestarted), id) == LogOf(t, id)
  {}

  /** Once rejected, completed or failed, a task's row and log never change again, whatever is tried. */
  lemma {:induction false} TerminalForever(s: State, steps: seq<Step>, id: string)
    requires Run(s, steps)
    requires id in s.t.tasks && IsTerminal(s.t.tasks[id].status)
    ensures id in Exec(s, steps).t.tasks && Exec(s, steps).t.tasks[id] == s.t.tasks[id]
    ensures LogOf(Exec(s, steps).t, id) == LogOf(s.t, id)
    decreases |steps|
  {
    if steps != [] {
      var before := steps[..|steps| - 1];
      TerminalForever(s, before, id);
      TerminalRowsStay(Exec(s, before), steps[|steps| - 1], id);
    }
  }

  // ----- Leases -----

  /** The lease a run last granted to a task: by a claim of it, or by a heartbeat while it waits. */
  ghost function LastGrant(s: State, steps: seq<Step>, id: string): Option<int>
    requires Run(s, steps)
    decreases |steps|
  {
    if steps == [] then None
    else
      var before := Exec(s, steps[..|steps| - 1]);
      match steps[|steps| - 1]
      case ClaimStep(claimed, _, _, leaseSeconds) =>
        if claimed == id then Some(before.now + 1000 * leaseSeconds) else LastGrant(s, steps[..|steps| - 1], id)
      case ExtendStep(workerId, ids, leaseSeconds) =>
        if id in WaitingAmong(before.t, workerId, ids) then Some(before.now + 1000 * leaseSeconds)
        else LastGrant(s, steps[..|steps| - 1], id)
      case _ => LastGrant(s, steps[..|steps| - 1], id)
  }

  /** The only way into flight is a claim; in flight only a heartbeat moves the lease. */
  lemma LeaseMoves(s: State, step: Step, id: string)
    requires Enabled(s, step)
    requires id in Apply(s, step).t.tasks && InFlight(Apply(s, step).t.tasks[id].status)
    ensures !(step.ClaimStep? && step.id == id) ==>
      && id in s.t.tasks && InFlight(s.t.tasks[id].status)
      && Apply(s, step).t.tasks[id].workerId == s.t.tasks[id].workerId
      && Apply(s, step).t.tasks[id].lease ==
         if step.ExtendStep? && id in WaitingAmong(s.t, step.workerId, step.ids)
         then Some(s.now + 1000 * step.leaseSeconds) else s.t.tasks[id].lease
  {}

  /** An in-flight task holds the lease last granted to it, and a worker. */
  lemma {:induction false} LeaseIsTheLastGrant(s: State, steps: seq<Step>, id: string)
    requires Fresh(s) && Run(s, steps)
    requires id in Exec(s, steps).t.tasks && InFlight(Exec(s, steps).t.tasks[id].status)
    ensures Exec(s, steps).t.tasks[id].workerId.Some?
    ensures Exec(s, steps).t.tasks[id].lease.Some?
    ensures Exec(s, steps).t.tasks[id].lease == LastGrant(s, steps, id)
    decreases |steps|
  {
    var before := steps[..|steps| - 1];
    var mid, step := Exec(s, before), steps[|steps| - 1];
    LeaseMoves(mid, step, id);
    if !(step.ClaimStep? && step.id == id) {
      LeaseIsTheLastGrant(s, before, id);
    }
  }

  /** After a sweep no in-flight lease has run out; the rows swept are stalled and the others untouched. */
  lemma SweepClearsExpired(s: State)
    requires Consistent(s.t)
    ensures var u := Apply(s, SweepStep).t;
      && ExpiredAt(u, s.now) == {}
      && u.tasks.Keys == s.t.tasks.Keys
      && forall id <- s.t.tasks ::
           if id in ExpiredAt(s.t, s.now) then u.tasks[id] == s.t.tasks[id].(status := Stalled)
           else u.tasks[id] == s.t.tasks[id] && LogOf(u, id) == LogOf(s.t, id)
  {}

  // ----- What no step changes -----

  predicate SameIdentity(row: TaskRow, next: TaskRow) {
    next.(status := row.status, agent := row.agent, workerId := row.workerId, lease := row.lease) == row
  }

  lemma LogsGrow(s: State, step: Step, id: string)
    requires Enabled(s, step) && id in s.t.tasks
    ensures LogOf(s.t, id) <= LogOf(Apply(s, step).t, id)
  {}

  /** A task keeps its channel, label, payload and thread, and its log keeps what it has. */
  lemma IdentityKept(s: State, step: Step, id: string)
    requires Enabled(s, step) && id in s.t.tasks
    ensures id in Apply(s, step).t.tasks && SameIdentity(s.t.tasks[id], Apply(s, step).t.tasks[id])
    ensures LogOf(s.t, id) <= LogOf(Apply(s, step).t, id)
  {
    LogsGrow(s, step, id);
  }

  /** Only a creation adds a task, and it adds the one it names. */
  lemma OnlyCreationAdds(s: State, step: Step, id: string)
    requires Enabled(s, step) && id in Apply(s, step).t.tasks && id !in s.t.tasks
    ensures step.CreateStep? && step.id == id && Apply(s, step).t.tasks[id].threadId == step.threadId
  {}

  /** Logs belong to tasks. */
  lemma LogsBelongToTasks(s: State, step: Step)
    requires Enabled(s, step) && s.t.taskEvents.Keys <= s.t.tasks.Keys
    ensures Apply(s, step).t.taskEvents.Keys <= Apply(s, step).t.tasks.Keys
  {}

  /** No task step touches channels or threads. */
  lemma TaskStepsFrame(s: State, step: Step)
    requires Enabled(s, step)
    ensures var u := Apply(s, step).t;
      u.channels == s.t.channels && u.threads == s.t.threads && u.threadEvents == s.t.threadEvents
  {}
}
