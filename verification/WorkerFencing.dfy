/**
  * Reports name a task, not a claim of it: what a session whose claim is void can do to the
  * current one, and what checking the claim would give.
  */
module WorkerFencing {
  import opened Wrappers
  import opened TaskDomain
  import opened Schema
  import opened TaskStore
  import opened TaskRuns
  import opened TaskFairness
  import ReportQueue
  import opened Worker
  import opened WorkerProtocol

  // ----- Whom a report disturbs -----

  lemma NoSelfLoops(status: TaskStatus)
    ensures !CanTransition(status, status)
  {}

  /** The report of one session disturbs another exactly when they share a task and the table accepts it. */
  lemma ForeignReportDisturbs(p: System, sender: string, other: string)
    requires May(p, SendNext(sender)) && other in p.sessions && other != sender
    ensures var q, session := After(p, SendNext(sender)), p.sessions[sender];
      && other in q.sessions
      && (q.sessions[other].disturbed <==>
            || p.sessions[other].disturbed
            || (&& p.sessions[other].task == session.task && session.task in p.store.t.tasks
                && CanTransition(p.store.t.tasks[session.task].status, ReportTarget(session.plan[session.sent]))))
  {
    var session := p.sessions[sender];
    if session.task in p.store.t.tasks {
      NoSelfLoops(p.store.t.tasks[session.task].status);
    }
  }

  // ----- Claims are numbered -----

  /** A step writes at most one event to a log; it is a claim exactly when the step claims the task. */
  lemma OneEvent(s: State, step: Step, id: string)
    requires Enabled(s, step)
    ensures var before, after := LogOf(s.t, id), LogOf(Apply(s, step).t, id);
      && (step.ClaimStep? && step.id == id ==> |after| == |before| + 1)
      && (after != before ==>
            && |after| == |before| + 1 && after == before + [after[|before|]]
            && (after[|before|].ClaimedEvent? <==> step.ClaimStep? && step.id == id))
  {}

  lemma ClaimsStep(s: State, step: Step, id: string)
    requires Enabled(s, step)
    ensures ClaimsOf(Apply(s, step).t, id)
         == ClaimsOf(s.t, id) + if step.ClaimStep? && step.id == id then 1 else 0
  {
    OneEvent(s, step, id);
    OneMoreClaim(LogOf(s.t, id), LogOf(Apply(s, step).t, id), step.ClaimStep? && step.id == id);
  }

  lemma OneMoreClaim(before: seq<EventKind>, after: seq<EventKind>, claimed: bool)
    requires claimed ==> |after| == |before| + 1
    requires after != before ==>
      |after| == |before| + 1 && after == before + [after[|before|]] && (after[|before|].ClaimedEvent? <==> claimed)
    ensures TallyOf(after).claims == TallyOf(before).claims + if claimed then 1 else 0
  {
    if after != before {
      AppendToLog(before, after[|before|]);
    }
  }

  predicate SameClaim(a: Session, b: Session) {
    a.task == b.task && a.claim == b.claim
  }

  /** No two sessions hold the same claim of a task, and none a claim that was never made. */
  ghost predicate Numbered(p: System) {
    && (forall sid <- p.sessions :: p.sessions[sid].claim <= ClaimsOf(p.store.t, p.sessions[sid].task))
    && (forall a, b :: a in p.sessions && b in p.sessions && SameClaim(p.sessions[a], p.sessions[b]) ==> a == b)
  }

  /** The store step a move makes. */
  function StepOf(p: System, move: Move): Option<Step>
    requires move.SendNext? ==> move.sid in p.sessions && p.sessions[move.sid].sent < |p.sessions[move.sid].plan|
  {
    match move
    case Open(_, id, workerId, labels, _) => Some(ClaimStep(id, workerId, labels, p.leaseOf(workerId)))
    case SendNext(sid) => Some(ReportStep(p.sessions[sid].task, p.sessions[sid].plan[p.sessions[sid].sent]))
    case StoreStep(step) => Some(step)
    case _ => None
  }

  lemma MovesAreSteps(p: System, move: Move)
    requires May(p, move)
    ensures match StepOf(p, move)
            case Some(step) => Enabled(p.store, step) && After(p, move).store == Apply(p.store, step)
            case None => After(p, move).store == p.store
  {}

  /** A move opens at most one session, and leaves task and claim of the others alone. */
  lemma SessionsFrame(p: System, move: Move, sid: string)
    requires May(p, move) && sid in After(p, move).sessions
    ensures var session := After(p, move).sessions[sid];
      if move.Open? && sid == move.sid
      then session.task == move.id && session.claim == ClaimsOf(After(p, move).store.t, move.id)
      else sid in p.sessions && SameClaim(session, p.sessions[sid])
  {}

  /** No session's claim is beyond the count, and the session just opened holds the newest. */
  lemma ClaimsCounted(p: System, move: Move, sid: string)
    requires Numbered(p) && May(p, move) && sid in After(p, move).sessions
    ensures var q := After(p, move);
      && q.sessions[sid].claim <= ClaimsOf(q.store.t, q.sessions[sid].task)
      && (move.Open? && sid != move.sid && q.sessions[sid].task == move.id ==>
            q.sessions[sid].claim < ClaimsOf(q.store.t, move.id))
  {
    SessionsFrame(p, move, sid);
    MovesAreSteps(p, move);
    if StepOf(p, move).Some? {
      ClaimsStep(p.store, StepOf(p, move).value, After(p, move).sessions[sid].task);
    }
  }

  lemma MoveKeepsNumbered(p: System, move: Move)
    requires Numbered(p) && May(p, move)
    ensures Numbered(After(p, move))
  {
    var q := After(p, move);
    forall sid <- q.sessions ensures q.sessions[sid].claim <= ClaimsOf(q.store.t, q.sessions[sid].task) {
      ClaimsCounted(p, move, sid);
    }
    forall a, b | a in q.sessions && b in q.sessions && SameClaim(q.sessions[a], q.sessions[b]) ensures a == b {
      SessionsFrame(p, move, a);
      SessionsFrame(p, move, b);
      ClaimsCounted(p, move, a);
      ClaimsCounted(p, move, b);
    }
  }

  lemma {:induction false} RunsStayNumbered(p: System, moves: seq<Move>)
    requires p.sessions == map[] && Playable(p, moves)
    ensures Numbered(Play(p, moves))
    decreases |moves|
  {
    if moves != [] {
      RunsStayNumbered(p, moves[..|moves| - 1]);
      MoveKeepsNumbered(Play(p, moves[..|moves| - 1]), moves[|moves| - 1]);
    }
  }

  // ----- With a fence -----

  /** The session's claim is the latest of its task. */
  ghost predicate Latest(p: System, sid: string) {
    sid in p.sessions && p.sessions[sid].claim == ClaimsOf(p.store.t, p.sessions[sid].task)
  }

  /** The check that is missing in applyReport: the sender's claim is still the task's latest. */
  ghost predicate Fenced(p: System, move: Move) {
    move.SendNext? ==> Latest(p, move.sid)
  }

  ghost predicate FencedRun(p: System, moves: seq<Move>)
    requires Playable(p, moves)
    decreases |moves|
  {
    moves == [] ||
    (FencedRun(p, moves[..|moves| - 1]) && Fenced(Play(p, moves[..|moves| - 1]), moves[|moves| - 1]))
  }

  /** The move is no report, and changes the status of the session's task: a sweep, a person, another claim. */
  ghost predicate Touches(p: System, move: Move, sid: string)
    requires May(p, move)
  {
    && !move.SendNext? && sid in p.sessions
    && StatusOf(p.store.t, p.sessions[sid].task) != StatusOf(After(p, move).store.t, p.sessions[sid].task)
  }

  /** Since its claim nothing but reports has moved the session's task. */
  ghost predicate Untouched(p: System, moves: seq<Move>, sid: string)
    requires Playable(p, moves)
    decreases |moves|
  {
    moves == [] ||
    (Untouched(p, moves[..|moves| - 1], sid) && !Touches(Play(p, moves[..|moves| - 1]), moves[|moves| - 1], sid))
  }

  /** In a fenced run no report of another session disturbs the session that holds the latest claim. */
  lemma FenceKeeps(p: System, move: Move, sid: string)
    requires Numbered(p) && May(p, move) && Fenced(p, move) && !Touches(p, move, sid)
    requires sid in p.sessions ==> Latest(p, sid) && !p.sessions[sid].disturbed
    ensures var q := After(p, move); sid in q.sessions ==> Latest(q, sid) && !q.sessions[sid].disturbed
  {
    var q := After(p, move);
    if sid in q.sessions {
      SessionsFrame(p, move, sid);
      MovesAreSteps(p, move);
      if StepOf(p, move).Some? {
        ClaimsStep(p.store, StepOf(p, move).value, q.sessions[sid].task);
      }
      if move.SendNext? && move.sid != sid {
        ForeignReportDisturbs(p, move.sid, sid);
      }
    }
  }

  /**
    * With the fence: a session whose task nothing but reports has moved since its claim is
    * undisturbed, whatever other sessions of the task try to report, and the store accepts each
    * report it sends.
    */
  lemma {:induction false} FenceProtects(p: System, moves: seq<Move>, sid: string)
    requires p.sessions == map[] && Playable(p, moves) && FencedRun(p, moves) && Untouched(p, moves, sid)
    requires sid in Play(p, moves).sessions
    ensures var q := Play(p, moves);
      && Latest(q, sid) && !q.sessions[sid].disturbed
      && (May(q, SendNext(sid)) ==>
            Report(q.store.t, q.sessions[sid].task, q.sessions[sid].plan[q.sessions[sid].sent]).result.Ok?)
    decreases |moves|
  {
    FencedSessions(p, moves, sid);
    if May(Play(p, moves), SendNext(sid)) {
      ReportsAreAccepted(p, moves, sid);
    }
  }

  lemma {:induction false} FencedSessions(p: System, moves: seq<Move>, sid: string)
    requires p.sessions == map[] && Playable(p, moves) && FencedRun(p, moves) && Untouched(p, moves, sid)
    ensures sid in Play(p, moves).sessions ==> Latest(Play(p, moves), sid) && !Play(p, moves).sessions[sid].disturbed
    decreases |moves|
  {
    if moves != [] {
      var before := moves[..|moves| - 1];
      FencedSessions(p, before, sid);
      RunsStayNumbered(p, before);
      FenceKeeps(Play(p, before), moves[|moves| - 1], sid);
    }
  }

  // ----- Without it: a run in which a void claim decides -----

  /** A session that starts its agent, hears that it is done, and reports so. */
  const DONE_PLAN := [StartedReport, CompletedReport(None)]

  lemma DonePlanIsAPlan()
    ensures IsPlan(DONE_PLAN)
  {
    var decision := StartDecision(Allow, None, None);
    var script := Script([Arrival([ReportQueue.AgentCompleted(None)], [])], n => Answer([], Approve));
    assert Arrived([], script.arrivals) == [ReportQueue.AgentCompleted(None)];
    assert Conversation([], script.arrivals, script.answers, 1) == [CompletedReport(None)];
    assert Plan(decision, true, script) == DONE_PLAN;
  }

  /** The task is there and has this status, and no other claimable task is older. */
  ghost predicate Foremost(t: Tables, labels: seq<string>, id: string, status: TaskStatus) {
    && id in t.tasks && t.tasks[id].status == status && t.tasks[id].labelName in labels
    && forall x <- t.tasks :: x != id && Claimable(t, labels, x) ==> t.tasks[id].createdAt <= t.tasks[x].createdAt
  }

  lemma ForemostIsOldest(t: Tables, labels: seq<string>, id: string)
    ensures Foremost(t, labels, id, Pending) <==> Oldest(t, labels, id)
  {}

  /** A step that neither creates nor retries another task leaves the task foremost. */
  lemma StaysForemost(s: State, step: Step, labels: seq<string>, id: string, from: TaskStatus, to: TaskStatus)
    requires Foremost(s.t, labels, id, from) && Enabled(s, step) && !step.CreateStep?
    requires step.ResolveStep? ==> step.id == id
    requires StatusOf(Apply(s, step).t, id) == Some(to)
    ensures Foremost(Apply(s, step).t, labels, id, to)
  {
    IdentityKept(s, step, id);
    forall x <- Apply(s, step).t.tasks | x != id && Claimable(Apply(s, step).t, labels, x)
      ensures s.t.tasks[id].createdAt <= Apply(s, step).t.tasks[x].createdAt
    {
      ClaimableBefore(s, step, labels, x);
    }
  }

  /** The store's part of a situation: the task foremost in a status, its claims so far, the clock. */
  ghost predicate At(p: System, labels: seq<string>, id: string, status: TaskStatus, claims: nat, now: int) {
    Foremost(p.store.t, labels, id, status) && ClaimsOf(p.store.t, id) == claims && p.store.now == now
  }

  lemma OpenAt(p: System, sid: string, labels: seq<string>, id: string, workerId: string, claims: nat, now: int)
    requires At(p, labels, id, Pending, claims, now) && sid !in p.sessions
    ensures var open := Move.Open(sid, id, workerId, labels, DONE_PLAN);
      && May(p, open)
      && var q := After(p, open);
         && At(q, labels, id, Claimed, claims + 1, now) && q.leaseOf == p.leaseOf
         && q.store.t.tasks[id].lease == Some(now + 1000 * p.leaseOf(workerId))
         && q.sessions.Keys == p.sessions.Keys + {sid} && q.starts == p.starts
         && q.sessions[sid] == Session(id, workerId, claims + 1, DONE_PLAN, 0, None, None, None, false)
         && forall other <- p.sessions :: SameButDisturbed(p, q, other)
  {
    DonePlanIsAPlan();
    ForemostIsOldest(p.store.t, labels, id);
    ClaimedAt(p.store, labels, id, workerId, p.leaseOf(workerId));
  }

  /** The store's side of a claim. */
  lemma ClaimedAt(s: State, labels: seq<string>, id: string, workerId: string, leaseSeconds: nat)
    requires Foremost(s.t, labels, id, Pending)
    ensures var u := Claim(s.t, id, workerId, leaseSeconds, s.now);
      && Foremost(u, labels, id, Claimed) && ClaimsOf(u, id) == ClaimsOf(s.t, id) + 1
      && u.tasks[id].lease == Some(s.now + 1000 * leaseSeconds)
  {
    var claim := ClaimStep(id, workerId, labels, leaseSeconds);
    ForemostIsOldest(s.t, labels, id);
    StaysForemost(s, claim, labels, id, Pending, Claimed);
    ClaimsStep(s, claim, id);
  }

  lemma SendAt(p: System, sid: string, labels: seq<string>, id: string, from: TaskStatus, to: TaskStatus,
               claims: nat, now: int)
    requires At(p, labels, id, from, claims, now) && May(p, SendNext(sid)) && p.sessions[sid].task == id
    requires ReportTarget(p.sessions[sid].plan[p.sessions[sid].sent]) == to && CanTransition(from, to)
    ensures var q := After(p, SendNext(sid));
      && At(q, labels, id, to, claims, now) && q.leaseOf == p.leaseOf
      && q.store.t.tasks[id].lease == p.store.t.tasks[id].lease
      && q.sessions.Keys == p.sessions.Keys && q.starts == p.starts
      && q.sessions[sid] == AfterSending(p.sessions[sid], p.store.t)
      && forall other <- p.sessions :: other != sid && p.sessions[other].task == id ==>
           q.sessions[other] == p.sessions[other].(disturbed := true)
  {
    AcceptedAt(p.store, labels, id, from, p.sessions[sid].plan[p.sessions[sid].sent]);
    NoSelfLoops(from);
  }

  /** The store's side of an accepted report. */
  lemma AcceptedAt(s: State, labels: seq<string>, id: string, from: TaskStatus, report: TaskReport)
    requires Foremost(s.t, labels, id, from) && CanTransition(from, ReportTarget(report))
    ensures var outcome := Report(s.t, id, report);
      && outcome.result.Ok? && Foremost(outcome.tables, labels, id, ReportTarget(report))
      && ClaimsOf(outcome.tables, id) == ClaimsOf(s.t, id)
      && outcome.tables.tasks[id].lease == s.t.tasks[id].lease
  {
    var step := ReportStep(id, report);
    StaysForemost(s, step, labels, id, from, ReportTarget(report));
    ClaimsStep(s, step, id);
  }

  /** A store step that moves the task, or only the clock. */
  lemma StepAt(p: System, step: Step, labels: seq<string>, id: string, from: TaskStatus, to: TaskStatus,
               claims: nat, now: int)
    requires At(p, labels, id, from, claims, now) && (step.TickStep? || step.SweepStep? || step.ResolveStep?)
    requires step.ResolveStep? ==> step.id == id
    requires StatusOf(Apply(p.store, step).t, id) == Some(to)
    ensures May(p, StoreStep(step))
    ensures var q := After(p, StoreStep(step));
      && At(q, labels, id, to, claims, if step.TickStep? then now + step.ms else now) && q.leaseOf == p.leaseOf
      && q.sessions.Keys == p.sessions.Keys && q.starts == p.starts
      && (step.TickStep? ==> q.store.t == p.store.t)
      && forall sid <- p.sessions ::
           && q.sessions[sid].(disturbed := p.sessions[sid].disturbed) == p.sessions[sid]
           && (step.TickStep? ==> q.sessions[sid] == p.sessions[sid])
  {
    StaysForemost(p.store, step, labels, id, from, to);
    ClaimsStep(p.store, step, id);
  }

  /** When the clock alone moves on, nothing else does. */
  lemma OnlyTime(p: System, ms: nat)
    ensures May(p, StoreStep(TickStep(ms)))
    ensures After(p, StoreStep(TickStep(ms))) == p.(store := p.store.(now := p.store.now + ms))
  {
    assert Disturb(p.sessions, None, p.store.t, p.store.t) == p.sessions;
  }

  lemma ListenAt(p: System, sid: string)
    requires Busy(p, sid) && p.sessions[sid].plan == DONE_PLAN && p.sessions[sid].sent == 1
    requires p.sessions[sid].starting.None?
    ensures p.sessions[sid].listeningSince.None? ==>
      && May(p, Listen(sid))
      && After(p, Listen(sid))
         == p.(sessions := p.sessions[sid := p.sessions[sid].(listeningSince := Some(p.store.now))])
    ensures p.sessions[sid].listeningSince.Some? ==>
      && May(p, Hear(sid))
      && After(p, Hear(sid)) == p.(sessions := p.sessions[sid := p.sessions[sid].(listeningSince := None)])
  {}

  /** The task as its worker left it, and the worker still waiting for its agent. */
  ghost predicate Waits(p: System, sid: string, id: string, claim: nat, since: int) {
    && sid in p.sessions && p.sessions[sid].task == id && p.sessions[sid].claim == claim
    && p.sessions[sid].plan == DONE_PLAN && p.sessions[sid].sent == 1 && p.sessions[sid].starting.None?
    && p.sessions[sid].listeningSince == Some(since) && p.sessions[sid].gaveUpAt.None?
  }

  /** The claim, two milliseconds ago. */
  lemma ClaimedBefore(p: System, sid: string, labels: seq<string>, id: string, workerId: string, claims: nat, now: int)
    returns (moves: seq<Move>)
    requires At(p, labels, id, Pending, claims, now) && sid !in p.sessions
    ensures Playable(p, moves)
    ensures var q := Play(p, moves);
      && At(q, labels, id, Claimed, claims + 1, now + 2) && q.leaseOf == p.leaseOf
      && q.store.t.tasks[id].lease == Some(now + 1000 * p.leaseOf(workerId))
      && q.sessions.Keys == p.sessions.Keys + {sid} && q.starts == p.starts
      && q.sessions[sid] == Session(id, workerId, claims + 1, DONE_PLAN, 0, None, None, None, false)
  {
    var open := Move.Open(sid, id, workerId, labels, DONE_PLAN);
    assert [] + [open] == [open];
    OpenAt(p, sid, labels, id, workerId, claims, now);
    PlaySnoc(p, [], open);
    OnlyTime(Play(p, [open]), 2);
    PlaySnoc(p, [open], StoreStep(TickStep(2)));
    moves := [open] + [StoreStep(TickStep(2))];
  }

  /** An agent was started for this claim of the task. */
  ghost predicate StartedFor(starts: seq<Start>, id: string, claim: nat) {
    exists i :: 0 <= i < |starts| && starts[i].task == id && starts[i].claim == claim
  }

  predicate SameButDisturbed(p: System, q: System, sid: string) {
    sid in p.sessions && sid in q.sessions
    && q.sessions[sid].(disturbed := p.sessions[sid].disturbed) == p.sessions[sid]
  }

  /** The session reports that it starts its agent, and starts it. */
  lemma AgentStarted(p: System, sid: string, labels: seq<string>, id: string, workerId: string, claims: nat, now: int)
    returns (moves: seq<Move>)
    requires At(p, labels, id, Claimed, claims, now) && sid in p.sessions
    requires p.sessions[sid] == Session(id, workerId, claims, DONE_PLAN, 0, None, None, None, false)
    ensures Playable(p, moves)
    ensures var q := Play(p, moves);
      && At(q, labels, id, Running, claims, now) && q.leaseOf == p.leaseOf
      && q.store.t.tasks[id].lease == p.store.t.tasks[id].lease
      && q.sessions.Keys == p.sessions.Keys
      && q.sessions[sid] == Session(id, workerId, claims, DONE_PLAN, 1, None, None, None, false)
      && p.starts <= q.starts && StartedFor(q.starts, id, claims)
      && forall other <- p.sessions :: other != sid && p.sessions[other].task == id ==> SameButDisturbed(p, q, other)
  {
    assert [] + [SendNext(sid)] == [SendNext(sid)];
    SendAt(p, sid, labels, id, Claimed, Running, claims, now);
    PlaySnoc(p, [], SendNext(sid));
    PlaySnoc(p, [SendNext(sid)], StartAgent(sid));
    moves := [SendNext(sid)] + [StartAgent(sid)];
    assert Play(p, moves).starts[|p.starts|].claim == claims;
  }

  /** The agent is started and awaited. */
  lemma StartsListening(p: System, sid: string, labels: seq<string>, id: string, workerId: string,
                        claims: nat, now: int)
    returns (moves: seq<Move>)
    requires At(p, labels, id, Claimed, claims, now) && sid in p.sessions
    requires p.sessions[sid] == Session(id, workerId, claims, DONE_PLAN, 0, None, None, None, false)
    ensures Playable(p, moves)
    ensures var q := Play(p, moves);
      && At(q, labels, id, Running, claims, now) && q.leaseOf == p.leaseOf
      && q.store.t.tasks[id].lease == p.store.t.tasks[id].lease
      && q.sessions.Keys == p.sessions.Keys && Waits(q, sid, id, claims, now) && StartedFor(q.starts, id, claims)
  {
    moves := AgentStarted(p, sid, labels, id, workerId, claims, now);
    ListenAt(Play(p, moves), sid);
    PlaySnoc(p, moves, Listen(sid));
    moves := moves + [Listen(sid)];
  }

  /** A worker claims the task, starts its agent two milliseconds later and waits for it. */
  lemma AgentAwaited(p: System, sid: string, labels: seq<string>, id: string, workerId: string, claims: nat, now: int)
    returns (moves: seq<Move>)
    requires At(p, labels, id, Pending, claims, now) && sid !in p.sessions
    ensures Playable(p, moves)
    ensures var q := Play(p, moves);
      && At(q, labels, id, Running, claims + 1, now + 2) && q.leaseOf == p.leaseOf
      && q.store.t.tasks[id].lease == Some(now + 1000 * p.leaseOf(workerId))
      && q.sessions.Keys == p.sessions.Keys + {sid} && Waits(q, sid, id, claims + 1, now + 2)
      && StartedFor(q.starts, id, claims + 1)
  {
    var a := ClaimedBefore(p, sid, labels, id, workerId, claims, now);
    var b := StartsListening(Play(p, a), sid, labels, id, workerId, claims + 1, now + 2);
    PlayOn(p, a, b);
    moves := a + b;
  }

  /** The lease has run out a millisecond before the worker's timer does. */
  lemma LeaseRunsOut(p: System, sid: string, labels: seq<string>, id: string, claims: nat, now: int, ms: nat)
    returns (moves: seq<Move>)
    requires At(p, labels, id, Running, claims, now) && Waits(p, sid, id, claims, now)
    requires p.store.t.tasks[id].lease.Some? && p.store.t.tasks[id].lease.value < now + ms
    ensures Playable(p, moves)
    ensures var q := Play(p, moves);
      && At(q, labels, id, Stalled, claims, now + ms) && Waits(q, sid, id, claims, now)
      && q.sessions.Keys == p.sessions.Keys && q.leaseOf == p.leaseOf && q.starts == p.starts
  {
    var tick := StoreStep(TickStep(ms));
    assert [] + [tick] == [tick];
    StepAt(p, TickStep(ms), labels, id, Running, Running, claims, now);
    PlaySnoc(p, [], tick);
    var q := Play(p, [tick]);
    SweepStalls(q.store, id);
    StepAt(q, SweepStep, labels, id, Running, Stalled, claims, now + ms);
    PlaySnoc(p, [tick], StoreStep(SweepStep));
    moves := [tick] + [StoreStep(SweepStep)];
  }

  lemma SweepStalls(s: State, id: string)
    requires id in s.t.tasks && s.t.tasks[id].status == Running
    requires s.t.tasks[id].lease.Some? && s.t.tasks[id].lease.value < s.now
    ensures StatusOf(Apply(s, SweepStep).t, id) == Some(Stalled)
  {}

  /** A person has the stalled task retried. */
  lemma Retried(p: System, sid: string, labels: seq<string>, id: string, claims: nat, now: int, since: int)
    requires At(p, labels, id, Stalled, claims, now) && Waits(p, sid, id, claims, since)
    ensures May(p, StoreStep(ResolveStep(id, Retry)))
    ensures var q := After(p, StoreStep(ResolveStep(id, Retry)));
      && At(q, labels, id, Pending, claims, now) && Waits(q, sid, id, claims, since)
      && q.sessions.Keys == p.sessions.Keys && q.leaseOf == p.leaseOf && q.starts == p.starts
  {
    StepAt(p, ResolveStep(id, Retry), labels, id, Stalled, Pending, claims, now);
  }

  /** Another worker claims the task and starts its agent; the first one's agent then reports. */
  lemma BothAtWork(p: System, stale: string, current: string, labels: seq<string>, id: string, workerId: string,
                   claims: nat, now: int)
    returns (moves: seq<Move>)
    requires At(p, labels, id, Pending, claims, now) && current !in p.sessions
    requires exists since :: Waits(p, stale, id, claims, since)
    ensures Playable(p, moves)
    ensures var q := Play(p, moves);
      && At(q, labels, id, Running, claims + 1, now) && May(q, SendNext(stale)) && current in q.sessions
      && q.sessions[stale].task == id && q.sessions[stale].plan == DONE_PLAN
      && q.sessions[stale].sent == 1 && q.sessions[stale].claim == claims
      && q.sessions[current] == Session(id, workerId, claims + 1, DONE_PLAN, 1, None, None, None, false)
      && p.starts <= q.starts && StartedFor(q.starts, id, claims + 1)
  {
    moves := ClaimedAndStarted(p, current, labels, id, workerId, claims, now);
    var q := Play(p, moves);
    assert SameButDisturbed(p, q, stale);
    ListenAt(q, stale);
    PlaySnoc(p, moves, Hear(stale));
    moves := moves + [Hear(stale)];
  }

  lemma ClaimedAndStarted(p: System, sid: string, labels: seq<string>, id: string, workerId: string,
                          claims: nat, now: int)
    returns (moves: seq<Move>)
    requires At(p, labels, id, Pending, claims, now) && sid !in p.sessions
    ensures Playable(p, moves)
    ensures var q := Play(p, moves);
      && At(q, labels, id, Running, claims + 1, now) && sid in q.sessions
      && q.sessions[sid] == Session(id, workerId, claims + 1, DONE_PLAN, 1, None, None, None, false)
      && p.starts <= q.starts && StartedFor(q.starts, id, claims + 1)
      && forall other <- p.sessions :: p.sessions[other].task == id ==> SameButDisturbed(p, q, other)
  {
    var open := Move.Open(sid, id, workerId, labels, DONE_PLAN);
    assert [] + [open] == [open];
    OpenAt(p, sid, labels, id, workerId, claims, now);
    PlaySnoc(p, [], open);
    var q := Play(p, [open]);
    var rest := AgentStarted(q, sid, labels, id, workerId, claims + 1, now);
    PlayOn(p, [open], rest);
    moves := [open] + rest;
    forall other <- p.sessions | p.sessions[other].task == id ensures SameButDisturbed(p, Play(p, moves), other) {
      assert SameButDisturbed(p, q, other) && SameButDisturbed(q, Play(p, moves), other);
    }
  }

  /** A report on a running task by a session whose claim is void finishes it, and the current session's is refused. */
  lemma VoidReportWins(p: System, stale: string, current: string, labels: seq<string>, id: string,
                       claims: nat, now: int)
    requires At(p, labels, id, Running, claims, now) && May(p, SendNext(stale)) && stale != current
    requires p.sessions[stale].task == id && p.sessions[stale].plan == DONE_PLAN && p.sessions[stale].sent == 1
    requires current in p.sessions && p.sessions[current].task == id
    requires p.sessions[current].plan == DONE_PLAN && p.sessions[current].sent == 1
    ensures var q := After(p, SendNext(stale));
      && StatusOf(q.store.t, id) == Some(Completed) && current in q.sessions && q.sessions[current].disturbed
      && q.sessions[current].sent < |q.sessions[current].plan|
      && Report(q.store.t, id, q.sessions[current].plan[q.sessions[current].sent]).result.Err?
  {
    SendAt(p, stale, labels, id, Running, Completed, claims, now);
    RefusedOnceCompleted(After(p, SendNext(stale)).store.t, id, DONE_PLAN[1]);
  }

  lemma RefusedOnceCompleted(t: Tables, id: string, report: TaskReport)
    requires id in t.tasks && t.tasks[id].status == Completed
    ensures Report(t, id, report).result.Err?
  {}

  /** A session claims the task, and loses its claim to a sweep and a retry while it waits for its agent. */
  lemma ClaimGoesVoid(p: System, sid: string, labels: seq<string>, id: string, workerId: string, claims: nat, now: int)
    returns (moves: seq<Move>)
    requires At(p, labels, id, Pending, claims, now) && sid !in p.sessions && p.leaseOf(workerId) > 0
    ensures Playable(p, moves)
    ensures var q := Play(p, moves);
      && At(q, labels, id, Pending, claims + 1, now + 1 + 1000 * p.leaseOf(workerId))
      && Waits(q, sid, id, claims + 1, now + 2) && q.sessions.Keys == p.sessions.Keys + {sid}
      && StartedFor(q.starts, id, claims + 1)
  {
    var ms := 1000 * p.leaseOf(workerId) - 1;
    var a := AgentAwaited(p, sid, labels, id, workerId, claims, now);
    var b := LeaseRunsOut(Play(p, a), sid, labels, id, claims + 1, now + 2, ms);
    PlayOn(p, a, b);
    var retry := StoreStep(ResolveStep(id, Retry));
    Retried(Play(p, a + b), sid, labels, id, claims + 1, now + 2 + ms, now + 2);
    PlaySnoc(p, a + b, retry);
    moves := a + b + [retry];
  }

  /**
    * For every claimable task, two workers and a system at rest: a run in which the first worker's
    * session, void since a sweep and a retry, completes the task that the second has claimed and
    * is working on, with an agent started for either claim. The second session's own report is
    * refused.
    */
  lemma VoidClaimDecides(p: System, stale: string, current: string, labels: seq<string>, id: string,
                         worker1: string, worker2: string)
    returns (moves: seq<Move>)
    requires p.sessions == map[] && Oldest(p.store.t, labels, id) && stale != current && p.leaseOf(worker1) > 0
    ensures Playable(p, moves) && May(Play(p, moves), SendNext(stale))
    ensures var q := Play(p, moves);
      && q.sessions[stale].task == id && !Latest(q, stale)
      && Latest(q, current) && q.sessions[current].task == id && !q.sessions[current].disturbed
      && StartedFor(q.starts, id, q.sessions[stale].claim) && StartedFor(q.starts, id, q.sessions[current].claim)
      && var r := After(q, SendNext(stale));
         && StatusOf(r.store.t, id) == Some(Completed) && current in r.sessions && r.sessions[current].disturbed
         && r.sessions[current].sent < |r.sessions[current].plan|
         && Report(r.store.t, id, r.sessions[current].plan[r.sessions[current].sent]).result.Err?
  {
    var claims, now, late := ClaimsOf(p.store.t, id), p.store.now, p.store.now + 1 + 1000 * p.leaseOf(worker1);
    ForemostIsOldest(p.store.t, labels, id);
    var a := ClaimGoesVoid(p, stale, labels, id, worker1, claims, now);
    var b := BothAtWork(Play(p, a), stale, current, labels, id, worker2, claims + 1, late);
    PlayOn(p, a, b);
    moves := a + b;
    VoidReportWins(Play(p, moves), stale, current, labels, id, claims + 2, late);
  }
}
