/**
  * Many worker sessions against one store, on one clock, with every other store step interleaved:
  * other workers, users, heartbeats, sweeps, restarts.
  */
module WorkerProtocol {
  import opened Wrappers
  import opened TaskDomain
  import opened Schema
  import opened TaskStore
  import opened TaskRuns
  import opened Worker

  /**
    * One processOne call after its claim, which was the `claim`-th of its task: its worker, the
    * reports it will send, how many it has sent, since when it waits for its agent, and when it
    * gave up. Between its accepted started report and the start of its agent, `starting` is
    * where in the task's log that report is. `disturbed` records that somebody else changed the
    * status of its task.
    */
  datatype Session = Session(task: string, workerId: string, claim: nat, plan: seq<TaskReport>, sent: nat,
                             starting: Option<nat>, listeningSince: Option<int>, gaveUpAt: Option<int>,
                             disturbed: bool)

  /** An agent started for a claim of a task, and where in the log the started report is. */
  datatype Start = Start(task: string, claim: nat, reportedAt: nat)

  /** Each worker has a lease length of its own. */
  datatype System = System(store: State, sessions: map<string, Session>, starts: seq<Start>, leaseOf: string -> nat)

  datatype Move =
    | Open(sid: string, id: string, workerId: string, labels: seq<string>, plan: seq<TaskReport>)
    | SendNext(sid: string)
    | StartAgent(sid: string)
    | Listen(sid: string)
    | Hear(sid: string)
    | GiveUp(sid: string)
    | StoreStep(step: Step)

  /** The plans processOne can follow, over all gate verdicts, decisions and agent behaviours. */
  ghost predicate IsPlan(plan: seq<TaskReport>) {
    exists decision, agentKnown, script :: plan == Plan(decision, agentKnown, script)
  }

  lemma PlansAreAccepted(plan: seq<TaskReport>)
    requires IsPlan(plan)
    ensures StatusAfter(Claimed, plan).Some?
  {
    var decision, agentKnown, script :| plan == Plan(decision, agentKnown, script);
    PlanAccepted(decision, agentKnown, script);
  }

  lemma PlansStartOnce(plan: seq<TaskReport>)
    requires IsPlan(plan)
    ensures StartsOnce(plan)
  {
    var decision, agentKnown, script :| plan == Plan(decision, agentKnown, script);
    PlanStartsOnce(decision, agentKnown, script);
  }

  predicate Busy(p: System, sid: string) {
    sid in p.sessions && p.sessions[sid].gaveUpAt.None?
  }

  /** The session's code can go on with what follows its last report. */
  predicate Proceeds(p: System, sid: string) {
    Busy(p, sid) && p.sessions[sid].listeningSince.None? && p.sessions[sid].starting.None?
  }

  ghost predicate May(p: System, move: Move) {
    match move
    case Open(sid, id, _, labels, plan) =>
      sid !in p.sessions && Oldest(p.store.t, labels, id) && IsPlan(plan)
    case SendNext(sid) =>
      Proceeds(p, sid) && p.sessions[sid].sent < |p.sessions[sid].plan|
    case StartAgent(sid) =>
      Busy(p, sid) && p.sessions[sid].starting.Some?
    case Listen(sid) =>
      && Proceeds(p, sid) && 0 < p.sessions[sid].sent <= |p.sessions[sid].plan|
      && p.sessions[sid].plan[p.sessions[sid].sent - 1] in {StartedReport, ResumedReport}
    case Hear(sid) =>
      Busy(p, sid) && p.sessions[sid].listeningSince.Some? && p.sessions[sid].sent < |p.sessions[sid].plan|
    case GiveUp(sid) =>
      && Busy(p, sid) && p.sessions[sid].listeningSince.Some?
      && p.sessions[sid].listeningSince.value + 1000 * p.leaseOf(p.sessions[sid].workerId) <= p.store.now
    case StoreStep(step) =>
      Enabled(p.store, step) && (step.ExtendStep? ==> step.leaseSeconds == p.leaseOf(step.workerId))
  }

  /** How often a task has been claimed, by its audit log. */
  function ClaimsOf(t: Tables, id: string): nat {
    TallyOf(LogOf(t, id)).claims
  }

  function StatusOf(t: Tables, id: string): Option<TaskStatus> {
    if id in t.tasks then Some(t.tasks[id].status) else None
  }

  /** Everyone but `self` whose task changed status is disturbed. */
  function Disturb(sessions: map<string, Session>, self: Option<string>, before: Tables, after: Tables)
    : map<string, Session>
  {
    map sid <- sessions ::
      if Some(sid) != self && StatusOf(before, sessions[sid].task) != StatusOf(after, sessions[sid].task)
      then sessions[sid].(disturbed := true) else sessions[sid]
  }

  /** The session once its next report is accepted, given what the tables were before. */
  function AfterSending(session: Session, before: Tables): Session
    requires session.sent < |session.plan|
  {
    session.(sent := session.sent + 1,
             starting := if session.plan[session.sent] == StartedReport then Some(|LogOf(before, session.task)|)
                         else None)
  }

  ghost function After(p: System, move: Move): System
    requires May(p, move)
  {
    match move
    case Open(sid, id, workerId, labels, plan) =>
      var t := Claim(p.store.t, id, workerId, p.leaseOf(workerId), p.store.now);
      var session := Session(id, workerId, ClaimsOf(t, id), plan, 0, None, None, None, false);
      p.(store := p.store.(t := t), sessions := Disturb(p.sessions, None, p.store.t, t)[sid := session])
    case SendNext(sid) =>
      var session := p.sessions[sid];
      var outcome := Report(p.store.t, session.task, session.plan[session.sent]);
      var rest := Disturb(p.sessions, Some(sid), p.store.t, outcome.tables);
      p.(store := p.store.(t := outcome.tables),
         sessions := if outcome.result.Ok? then rest[sid := AfterSending(session, p.store.t)] else rest - {sid})
    case StartAgent(sid) =>
      var session := p.sessions[sid];
      p.(sessions := p.sessions[sid := session.(starting := None)],
         starts := p.starts + [Start(session.task, session.claim, session.starting.value)])
    case Listen(sid) =>
      p.(sessions := p.sessions[sid := p.sessions[sid].(listeningSince := Some(p.store.now))])
    case Hear(sid) =>
      p.(sessions := p.sessions[sid := p.sessions[sid].(listeningSince := None)])
    case GiveUp(sid) =>
      p.(sessions := p.sessions[sid := p.sessions[sid].(gaveUpAt := Some(p.store.now))])
    case StoreStep(step) =>
      var store := Apply(p.store, step);
      p.(store := store, sessions := Disturb(p.sessions, None, p.store.t, store.t))
  }

  ghost predicate Playable(p: System, moves: seq<Move>)
    decreases |moves|, 0
  {
    moves == [] ||
    (Playable(p, moves[..|moves| - 1]) && May(Play(p, moves[..|moves| - 1]), moves[|moves| - 1]))
  }

  ghost function Play(p: System, moves: seq<Move>): System
    requires Playable(p, moves)
    decreases |moves|, 1
  {
    if moves == [] then p else After(Play(p, moves[..|moves| - 1]), moves[|moves| - 1])
  }

  /**
    * A session that waits for its agent can go on when it hears something, and gives up exactly
    * once it has waited for the length of its lease; then it does nothing more, and its task is
    * left as it is.
    */
  lemma TimerTells(p: System, sid: string)
    requires sid in p.sessions && p.sessions[sid].gaveUpAt.None? && p.sessions[sid].listeningSince.Some?
    requires p.sessions[sid].starting.None?
    ensures May(p, GiveUp(sid)) <==>
      p.store.now - p.sessions[sid].listeningSince.value >= p.leaseOf(p.sessions[sid].workerId) * 1000
    ensures !May(p, SendNext(sid)) && (May(p, Hear(sid)) ==> May(After(p, Hear(sid)), SendNext(sid)))
    ensures May(p, GiveUp(sid)) ==>
      var q := After(p, GiveUp(sid));
      && q.store == p.store && q.starts == p.starts && q.sessions.Keys == p.sessions.Keys
      && q.sessions[sid].gaveUpAt == Some(p.store.now)
      && !May(q, SendNext(sid)) && !May(q, StartAgent(sid)) && !May(q, Listen(sid)) && !May(q, Hear(sid))
      && !May(q, GiveUp(sid))
  {}

  // ----- The simulation -----

  /** An undisturbed session knows its task's status, and its timer outlives its lease. */
  ghost predicate InStep(session: Session, store: State, leaseOf: string -> nat) {
    var leaseSeconds := leaseOf(session.workerId);
    && session.task in store.t.tasks && session.sent <= |session.plan|
    && StatusAfter(Claimed, session.plan).Some?
    && var row := store.t.tasks[session.task];
       && StatusAfter(Claimed, session.plan[..session.sent]) == Some(row.status)
       && (InFlight(row.status) ==>
             && row.workerId == Some(session.workerId)
             && row.lease.Some? && row.lease.value <= store.now + 1000 * leaseSeconds)
       && (session.listeningSince.Some? ==>
             && row.status == Running
             && session.listeningSince.value <= store.now
             && row.lease.value <= session.listeningSince.value + 1000 * leaseSeconds)
       && (session.gaveUpAt.Some? ==>
             && session.listeningSince.Some?
             && session.listeningSince.value + 1000 * leaseSeconds <= session.gaveUpAt.value <= store.now)
  }

  ghost predicate Simulates(p: System) {
    forall sid <- p.sessions :: !p.sessions[sid].disturbed ==> InStep(p.sessions[sid], p.store, p.leaseOf)
  }

  /** A store step that leaves the status of an in-step session's task alone leaves the session in step. */
  lemma StoreStepKeepsInStep(session: Session, store: State, step: Step, leaseOf: string -> nat)
    requires InStep(session, store, leaseOf) && Enabled(store, step)
    requires step.ExtendStep? ==> step.leaseSeconds == leaseOf(step.workerId)
    requires StatusOf(store.t, session.task) == StatusOf(Apply(store, step).t, session.task)
    ensures InStep(session, Apply(store, step), leaseOf)
  {
    var next := Apply(store, step);
    assert session.task in next.t.tasks;
    if InFlight(store.t.tasks[session.task].status) {
      LeaseMoves(store, step, session.task);
    }
  }

  lemma OwnReportKeepsInStep(session: Session, store: State, leaseOf: string -> nat)
    requires InStep(session, store, leaseOf)
    requires session.sent < |session.plan| && session.listeningSince.None? && session.gaveUpAt.None?
    ensures var outcome := Report(store.t, session.task, session.plan[session.sent]);
      && outcome.result.Ok?
      && InStep(AfterSending(session, store.t), store.(t := outcome.tables), leaseOf)
  {
    var k := session.sent;
    var sent, report := session.plan[..k], session.plan[k];
    assert session.plan == sent + [report] + session.plan[k + 1..];
    assert session.plan[..k + 1] == sent + [report];
    StatusAfterJoin(Claimed, sent + [report], session.plan[k + 1..]);
    StatusAfterJoin(Claimed, sent, [report]);
  }

  /** A report on one task leaves the sessions of undisturbed other tasks in step. */
  lemma ForeignReportKeepsInStep(session: Session, store: State, id: string, report: TaskReport, leaseOf: string -> nat)
    requires InStep(session, store, leaseOf)
    requires StatusOf(store.t, session.task) == StatusOf(Report(store.t, id, report).tables, session.task)
    ensures InStep(session, store.(t := Report(store.t, id, report).tables), leaseOf)
  {
    StoreStepKeepsInStep(session, store, ReportStep(id, report), leaseOf);
  }

  lemma OpenKeeps(p: System, move: Move)
    requires Simulates(p) && May(p, move) && move.Open?
    ensures Simulates(After(p, move))
  {
    var q := After(p, move);
    var claim := ClaimStep(move.id, move.workerId, move.labels, p.leaseOf(move.workerId));
    forall sid <- q.sessions | !q.sessions[sid].disturbed ensures InStep(q.sessions[sid], q.store, q.leaseOf) {
      if sid == move.sid {
        PlansAreAccepted(move.plan);
        assert move.plan[..0] == [];
      } else {
        StoreStepKeepsInStep(p.sessions[sid], p.store, claim, p.leaseOf);
      }
    }
  }

  lemma SendKeeps(p: System, move: Move)
    requires Simulates(p) && May(p, move) && move.SendNext?
    ensures Simulates(After(p, move))
  {
    var q, own := After(p, move), p.sessions[move.sid];
    forall sid <- q.sessions | !q.sessions[sid].disturbed ensures InStep(q.sessions[sid], q.store, q.leaseOf) {
      if sid == move.sid {
        OwnReportKeepsInStep(own, p.store, p.leaseOf);
      } else {
        ForeignReportKeepsInStep(p.sessions[sid], p.store, own.task, own.plan[own.sent], p.leaseOf);
      }
    }
  }

  lemma StoreStepKeeps(p: System, move: Move)
    requires Simulates(p) && May(p, move) && move.StoreStep?
    ensures Simulates(After(p, move))
  {
    var q := After(p, move);
    forall sid <- q.sessions | !q.sessions[sid].disturbed ensures InStep(q.sessions[sid], q.store, q.leaseOf) {
      StoreStepKeepsInStep(p.sessions[sid], p.store, move.step, p.leaseOf);
    }
  }

  /** A session starts to listen only on a running task, whose lease was granted no later than now. */
  lemma ListenKeeps(p: System, move: Move)
    requires Simulates(p) && May(p, move) && move.Listen?
    ensures Simulates(After(p, move))
  {
    var session := p.sessions[move.sid];
    if !session.disturbed {
      var k := session.sent - 1;
      assert session.plan[..k + 1] == session.plan[..k] + [session.plan[k]];
      StatusAfterJoin(Claimed, session.plan[..k], [session.plan[k]]);
      assert StatusAfter(Claimed, session.plan[..k + 1]) == Some(Running);
    }
  }

  lemma MoveKeepsSimulates(p: System, move: Move)
    requires Simulates(p) && May(p, move)
    ensures Simulates(After(p, move))
  {
    match move
    case Open(_, _, _, _, _) => OpenKeeps(p, move);
    case SendNext(_) => SendKeeps(p, move);
    case StartAgent(_) =>
    case Listen(_) => ListenKeeps(p, move);
    case Hear(_) =>
    case GiveUp(_) =>
    case StoreStep(_) => StoreStepKeeps(p, move);
  }

  /** In every run every undisturbed session stays in step with the store. */
  lemma {:induction false} RunsSimulate(p: System, moves: seq<Move>)
    requires p.sessions == map[] && Playable(p, moves)
    ensures Simulates(Play(p, moves))
    decreases |moves|
  {
    if moves != [] {
      RunsSimulate(p, moves[..|moves| - 1]);
      MoveKeepsSimulates(Play(p, moves[..|moves| - 1]), moves[|moves| - 1]);
    }
  }

  // ----- What follows -----

  /** Whatever else happens, the store accepts every report of a session that nobody disturbed. */
  lemma ReportsAreAccepted(p: System, moves: seq<Move>, sid: string)
    requires p.sessions == map[] && Playable(p, moves)
    requires May(Play(p, moves), SendNext(sid)) && !Play(p, moves).sessions[sid].disturbed
    ensures var q := Play(p, moves);
      Report(q.store.t, q.sessions[sid].task, q.sessions[sid].plan[q.sessions[sid].sent]).result.Ok?
  {
    RunsSimulate(p, moves);
    var q := Play(p, moves);
    OwnReportKeepsInStep(q.sessions[sid], q.store, q.leaseOf);
  }

  /**
    * A session that gave up was waiting longer than its lease: however many approvals with
    * heartbeats came before, the lease had run out by then, so any sweep strictly later stalls
    * the task.
    */
  lemma GivenUpTasksAreSwept(p: System, moves: seq<Move>, sid: string)
    requires p.sessions == map[] && Playable(p, moves)
    requires sid in Play(p, moves).sessions
    requires var session := Play(p, moves).sessions[sid];
      !session.disturbed && session.gaveUpAt.Some? && session.gaveUpAt.value < Play(p, moves).store.now
    ensures var q := Play(p, moves);
      var id := q.sessions[sid].task;
      && id in ExpiredAt(q.store.t, q.store.now)
      && id in Apply(q.store, SweepStep).t.tasks && Apply(q.store, SweepStep).t.tasks[id].status == Stalled
  {
    RunsSimulate(p, moves);
    GivenUpLeaseIsOver(Play(p, moves).sessions[sid], Play(p, moves).store, Play(p, moves).leaseOf);
  }

  lemma GivenUpLeaseIsOver(session: Session, store: State, leaseOf: string -> nat)
    requires InStep(session, store, leaseOf) && session.gaveUpAt.Some? && session.gaveUpAt.value < store.now
    ensures session.task in ExpiredAt(store.t, store.now)
    ensures session.task in Apply(store, SweepStep).t.tasks
    ensures Apply(store, SweepStep).t.tasks[session.task].status == Stalled
  {}

  /** The report after which a session waits for its agent. */
  predicate Listens(session: Session) {
    session.plan != [] && session.plan[|session.plan| - 1] in {StartedReport, ResumedReport}
  }

  /** processOne has returned or thrown without giving up: every report is sent and none is waited for. */
  predicate Ended(session: Session) {
    session.sent == |session.plan| && session.gaveUpAt.None? && session.listeningSince.None? && !Listens(session)
  }

  lemma LastReportDecides(from: TaskStatus, reports: seq<TaskReport>)
    requires reports != [] && StatusAfter(from, reports).Some?
    ensures StatusAfter(from, reports) == Some(ReportTarget(reports[|reports| - 1]))
  {
    var before, last := reports[..|reports| - 1], reports[|reports| - 1];
    assert reports == before + [last];
    StatusAfterJoin(from, before, [last]);
    StatusAfterOne(StatusAfter(from, before).value, last);
  }

  lemma SentOutcome(session: Session, store: State, leaseOf: string -> nat)
    requires InStep(session, store, leaseOf) && session.sent == |session.plan|
    ensures var status := store.t.tasks[session.task].status;
      && StatusAfter(Claimed, session.plan) == Some(status)
      && (status == Running <==> Listens(session))
      && (Ended(session) ==> IsTerminal(status) || status in {Claimed, Waiting})
  {
    assert session.plan[..session.sent] == session.plan;
    if session.plan != [] {
      LastReportDecides(Claimed, session.plan);
    }
  }

  /**
    * A session that has sent everything leaves its task where its reports lead: running exactly
    * when it waits for its agent or has given up on it. One that ended otherwise has finished its
    * task, or never started it.
    */
  lemma EndedSessions(p: System, moves: seq<Move>, sid: string)
    requires p.sessions == map[] && Playable(p, moves) && sid in Play(p, moves).sessions
    requires var session := Play(p, moves).sessions[sid]; !session.disturbed && session.sent == |session.plan|
    ensures var q := Play(p, moves);
      && q.sessions[sid].task in q.store.t.tasks
      && var status := q.store.t.tasks[q.sessions[sid].task].status;
         && StatusAfter(Claimed, q.sessions[sid].plan) == Some(status)
         && (status == Running <==> Listens(q.sessions[sid]))
         && (Ended(q.sessions[sid]) ==> IsTerminal(status) || status in {Claimed, Waiting})
  {
    RunsSimulate(p, moves);
    var q := Play(p, moves);
    SentOutcome(q.sessions[sid], q.store, q.leaseOf);
  }

  /** Only a session that listens gives up, and its task is running until a sweep finds it. */
  lemma GivenUpTasksRun(p: System, moves: seq<Move>, sid: string)
    requires p.sessions == map[] && Playable(p, moves) && sid in Play(p, moves).sessions
    requires !Play(p, moves).sessions[sid].disturbed && Play(p, moves).sessions[sid].gaveUpAt.Some?
    ensures var q := Play(p, moves); StatusOf(q.store.t, q.sessions[sid].task) == Some(Running)
  {
    RunsSimulate(p, moves);
  }

  // ----- One session with nobody in between -----

  lemma PlaySnoc(p: System, moves: seq<Move>, move: Move)
    requires Playable(p, moves) && May(Play(p, moves), move)
    ensures Playable(p, moves + [move]) && Play(p, moves + [move]) == After(Play(p, moves), move)
  {
    assert (moves + [move])[..|moves|] == moves;
  }

  lemma {:induction false} PlayOn(p: System, a: seq<Move>, b: seq<Move>)
    requires Playable(p, a) && Playable(Play(p, a), b)
    ensures Playable(p, a + b) && Play(p, a + b) == Play(Play(p, a), b)
    decreases |b|
  {
    if b == [] {
      assert a + b == a;
    } else {
      PlayOn(p, a, b[..|b| - 1]);
      SnocJoin(a, b);
      PlaySnoc(p, a + b[..|b| - 1], b[|b| - 1]);
    }
  }

  /** A session's next report is sent and accepted: one more of the reports that ReportAll sends. */
  lemma OwnReportSent(p: System, sid: string, taken: Tables)
    requires May(p, SendNext(sid))
    requires var session := p.sessions[sid];
      && session.task in taken.tasks && taken.tasks[session.task].status == Claimed
      && StatusAfter(Claimed, session.plan).Some?
      && p.store.t == ReportAll(taken, session.task, session.plan[..session.sent])
    ensures var q, session := After(p, SendNext(sid)), p.sessions[sid];
      && sid in q.sessions && q.sessions[sid] == AfterSending(session, p.store.t)
      && q.starts == p.starts && q.store.now == p.store.now
      && q.store.t == ReportAll(taken, session.task, session.plan[..session.sent + 1])
  {
    var session := p.sessions[sid];
    var sent, report := session.plan[..session.sent], session.plan[session.sent];
    assert session.plan[..session.sent + 1] == sent + [report] && (sent + [report])[..|sent|] == sent;
    NextAccepted(taken, session.task, sent, report, session.plan);
  }

  /** At most one more start: of this claim. */
  predicate StartedOnce(before: seq<Start>, after: seq<Start>, id: string, claim: nat, started: bool) {
    if !started then after == before
    else
      && |after| == |before| + 1 && before <= after && after[|before|].task == id && after[|before|].claim == claim
  }

  /** From `p` to `q` the session has sent its next report, and started its agent if it reported that. */
  ghost predicate SentOne(p: System, sid: string, taken: Tables, q: System)
    requires sid in p.sessions && p.sessions[sid].sent < |p.sessions[sid].plan|
  {
    var session := p.sessions[sid];
    && sid in q.sessions && q.sessions[sid] == session.(sent := session.sent + 1)
    && q.store.t == ReportAll(taken, session.task, session.plan[..session.sent + 1]) && q.store.now == p.store.now
    && StartedOnce(p.starts, q.starts, session.task, session.claim, session.plan[session.sent] == StartedReport)
  }

  /** The next report of a plan, and the start of the agent if that is what it reported. */
  lemma NextAndStart(p: System, sid: string, taken: Tables) returns (moves: seq<Move>)
    requires May(p, SendNext(sid))
    requires var session := p.sessions[sid];
      && session.task in taken.tasks && taken.tasks[session.task].status == Claimed
      && StatusAfter(Claimed, session.plan).Some?
      && p.store.t == ReportAll(taken, session.task, session.plan[..session.sent])
    ensures Playable(p, moves) && SentOne(p, sid, taken, Play(p, moves))
  {
    assert [] + [SendNext(sid)] == [SendNext(sid)];
    OwnReportSent(p, sid, taken);
    PlaySnoc(p, [], SendNext(sid));
    moves := [SendNext(sid)];
    if p.sessions[sid].plan[p.sessions[sid].sent] == StartedReport {
      OneStart(Play(p, moves), sid);
      PlaySnoc(p, moves, StartAgent(sid));
      moves := moves + [StartAgent(sid)];
    }
  }

  lemma OneStart(p: System, sid: string)
    requires May(p, StartAgent(sid))
    ensures var q, session := After(p, StartAgent(sid)), p.sessions[sid];
      && q == p.(sessions := q.sessions, starts := q.starts)
      && q.sessions == p.sessions[sid := session.(starting := None)]
      && StartedOnce(p.starts, q.starts, session.task, session.claim, true)
  {}

  /** Whether the first `k` reports of a plan hold the start. */
  lemma OneReportMore(plan: seq<TaskReport>, k: nat)
    requires StartsOnce(plan) && 0 < k <= |plan|
    ensures StartedReport in plan[..k] <==> StartedReport in plan[..k - 1] || plan[k - 1] == StartedReport
    ensures StartedReport in plan[..k - 1] ==> plan[k - 1] != StartedReport
  {
    assert plan[..k] == plan[..k - 1] + [plan[k - 1]];
  }

  /** From `p` to `q` the session has sent the first `k` reports, and started its agent if that is among them. */
  ghost predicate SentSoFar(p: System, sid: string, k: nat, q: System)
    requires sid in p.sessions && k <= |p.sessions[sid].plan|
  {
    var session := p.sessions[sid];
    && q.store.t == ReportAll(p.store.t, session.task, session.plan[..k]) && q.store.now == p.store.now
    && sid in q.sessions && q.sessions[sid] == session.(sent := k)
    && StartedOnce(p.starts, q.starts, session.task, session.claim, StartedReport in session.plan[..k])
  }

  lemma OneSentMore(p: System, sid: string, k: nat, q: System, r: System)
    requires sid in p.sessions && 0 < k <= |p.sessions[sid].plan| && StartsOnce(p.sessions[sid].plan)
    requires SentSoFar(p, sid, k - 1, q) && SentOne(q, sid, p.store.t, r)
    ensures SentSoFar(p, sid, k, r)
  {
    OneReportMore(p.sessions[sid].plan, k);
  }

  /** Sending the first `k` reports of the plan. */
  lemma {:induction false} SendsAreARun(p: System, sid: string, k: nat) returns (moves: seq<Move>)
    requires Proceeds(p, sid) && p.sessions[sid].sent == 0 && k <= |p.sessions[sid].plan|
    requires var session := p.sessions[sid];
      && session.task in p.store.t.tasks && p.store.t.tasks[session.task].status == Claimed
      && StatusAfter(Claimed, session.plan).Some? && StartsOnce(session.plan)
    ensures Playable(p, moves) && SentSoFar(p, sid, k, Play(p, moves))
    decreases k
  {
    if k == 0 {
      moves := [];
    } else {
      var before := SendsAreARun(p, sid, k - 1);
      var next := NextAndStart(Play(p, before), sid, p.store.t);
      PlayOn(p, before, next);
      moves := before + next;
      OneSentMore(p, sid, k, Play(p, before), Play(p, moves));
    }
  }

  /** Claiming, and sending the whole plan. */
  lemma PlanIsARun(p: System, sid: string, id: string, workerId: string, labels: seq<string>, plan: seq<TaskReport>)
    returns (moves: seq<Move>)
    requires May(p, Move.Open(sid, id, workerId, labels, plan))
    ensures Playable(p, moves) && sid in Play(p, moves).sessions
    ensures var q, taken := Play(p, moves), Claim(p.store.t, id, workerId, p.leaseOf(workerId), p.store.now);
      && q.store.t == ReportAll(taken, id, plan) && q.store.now == p.store.now
      && q.sessions[sid] == Session(id, workerId, ClaimsOf(taken, id), plan, |plan|, None, None, None, false)
      && StartedOnce(p.starts, q.starts, id, ClaimsOf(taken, id), StartedReport in plan)
  {
    var open := Move.Open(sid, id, workerId, labels, plan);
    assert [] + [open] == [open];
    PlaySnoc(p, [], open);
    PlansAreAccepted(plan);
    PlansStartOnce(plan);
    var rest := SendsAreARun(Play(p, [open]), sid, |plan|);
    assert plan[..|plan|] == plan;
    PlayOn(p, [open], rest);
    moves := [open] + rest;
  }

  /**
    * What the method ProcessOne promises is one of the interleaved runs, with nobody in between:
    * its claim, then the reports of its course, with one start of an agent exactly when the
    * course has one.
    */
  lemma ProcessOneIsARun(p: System, sid: string, id: string, workerId: string, labels: seq<string>,
                         overrides: map<string, string>, decision: StartDecision, adapters: set<string>,
                         defaultAgent: string, script: Script)
    returns (moves: seq<Move>)
    requires sid !in p.sessions && Oldest(p.store.t, labels, id)
    ensures Playable(p, moves) && sid in Play(p, moves).sessions
    ensures var q, taken := Play(p, moves), Claim(p.store.t, id, workerId, p.leaseOf(workerId), p.store.now);
      var course := CourseOf(overrides, id, taken.tasks[id], decision, adapters, defaultAgent, script);
      && q.store.t == ReportAll(taken, id, course.sent)
      && q.sessions[sid].sent == |q.sessions[sid].plan| && q.sessions[sid].plan == course.sent
      && !q.sessions[sid].disturbed
      && StartedOnce(p.starts, q.starts, id, ClaimsOf(taken, id), course.started.Some?)
  {
    var taken := Claim(p.store.t, id, workerId, p.leaseOf(workerId), p.store.now);
    var course := CourseOf(overrides, id, taken.tasks[id], decision, adapters, defaultAgent, script);
    assert IsPlan(course.sent);
    StartedIsReported(overrides, id, taken.tasks[id], decision, adapters, defaultAgent, script);
    moves := PlanIsARun(p, sid, id, workerId, labels, course.sent);
  }
}
