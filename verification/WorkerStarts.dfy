/** When agents are started, and how often, in every interleaving of sessions and store steps. */
module WorkerStarts {
  import opened Wrappers
  import opened TaskDomain
  import opened Schema
  import opened TaskStore
  import opened TaskRuns
  import opened Worker
  import opened WorkerProtocol
  import opened WorkerFencing

  /** There the log of the task holds an accepted started report, and before it as many claims as `claim`. */
  predicate ReportedAt(t: Tables, start: Start) {
    var log := LogOf(t, start.task);
    && start.reportedAt < |log| && log[start.reportedAt] == ReportedEvent(StartedReport)
    && start.claim <= TallyOf(log[..start.reportedAt]).claims
  }

  /** Neither for the same claim of a task nor on the same report. */
  predicate Apart(a: Start, b: Start) {
    a.task == b.task ==> a.claim != b.claim && a.reportedAt != b.reportedAt
  }

  /** Each start comes after an accepted started report of its own, and no two are for one claim. */
  ghost predicate StartsOk(p: System) {
    && (forall start <- p.starts :: ReportedAt(p.store.t, start))
    && (forall i, j :: 0 <= i < j < |p.starts| ==> Apart(p.starts[i], p.starts[j]))
  }

  /** The start that a session owes. */
  function Owed(session: Session): Start
    requires session.starting.Some?
  {
    Start(session.task, session.claim, session.starting.value)
  }

  ghost predicate Fresh(starts: seq<Start>, session: Session) {
    forall start <- starts :: start.task == session.task ==> start.claim != session.claim
  }

  ghost predicate OwingOk(t: Tables, starts: seq<Start>, session: Session) {
    session.starting.Some? ==>
      && 0 < session.sent <= |session.plan| && session.plan[session.sent - 1] == StartedReport
      && ReportedAt(t, Owed(session)) && forall start <- starts :: Apart(start, Owed(session))
  }

  /** Until its started report is accepted nothing is started for the session's claim. */
  ghost predicate SessionOk(t: Tables, starts: seq<Start>, session: Session) {
    && StartsOnce(session.plan) && session.sent <= |session.plan|
    && (StartedReport in session.plan[..session.sent] || Fresh(starts, session))
    && OwingOk(t, starts, session)
  }

  ghost predicate SessionsOk(p: System) {
    && (forall sid <- p.sessions :: SessionOk(p.store.t, p.starts, p.sessions[sid]))
    && (forall a, b :: a in p.sessions && b in p.sessions && a != b
                       && p.sessions[a].starting.Some? && p.sessions[b].starting.Some?
          ==> Apart(Owed(p.sessions[a]), Owed(p.sessions[b])))
  }

  // ----- Logs grow -----

  lemma {:induction false} ClaimsGrow(log: seq<EventKind>, n: nat)
    requires n <= |log|
    ensures TallyOf(log[..n]).claims <= TallyOf(log).claims
    decreases |log|
  {
    if n == |log| {
      assert log[..n] == log;
    } else {
      var before, last := log[..|log| - 1], log[|log| - 1];
      assert log == before + [last] && before[..n] == log[..n];
      AppendToLog(before, last);
      ClaimsGrow(before, n);
    }
  }

  lemma LogsGrow(p: System, move: Move, id: string)
    requires May(p, move)
    ensures LogOf(p.store.t, id) <= LogOf(After(p, move).store.t, id)
  {
    MovesAreSteps(p, move);
    if StepOf(p, move).Some? {
      OneEvent(p.store, StepOf(p, move).value, id);
    }
  }

  lemma ReportStays(t: Tables, u: Tables, start: Start)
    requires ReportedAt(t, start) && LogOf(t, start.task) <= LogOf(u, start.task)
    ensures ReportedAt(u, start)
  {
    assert LogOf(u, start.task)[..start.reportedAt] == LogOf(t, start.task)[..start.reportedAt];
  }

  // ----- Every move keeps that -----

  /** The move does not advance the session. */
  predicate Bystander(was: Session, session: Session) {
    session.(disturbed := was.disturbed, listeningSince := was.listeningSince, gaveUpAt := was.gaveUpAt) == was
  }

  /** What a move other than a start makes of a session. */
  predicate Advanced(p: System, move: Move, sid: string, session: Session) {
    if move.Open? && sid == move.sid then session.starting.None?
    else
      && sid in p.sessions
      && if move.SendNext? && sid == move.sid
         then p.sessions[sid].sent < |p.sessions[sid].plan| && session == AfterSending(p.sessions[sid], p.store.t)
         else Bystander(p.sessions[sid], session)
  }

  lemma SessionsAdvance(p: System, move: Move, sid: string)
    requires May(p, move) && !move.StartAgent? && sid in After(p, move).sessions
    ensures Advanced(p, move, sid, After(p, move).sessions[sid])
  {
    if move.SendNext? {
      SendAdvances(p, move, sid);
    }
  }

  lemma SendAdvances(p: System, move: Move, sid: string)
    requires May(p, move) && move.SendNext? && sid in After(p, move).sessions
    ensures Advanced(p, move, sid, After(p, move).sessions[sid])
  {}

  lemma BystanderOk(t: Tables, u: Tables, starts: seq<Start>, was: Session, session: Session)
    requires SessionOk(t, starts, was) && Bystander(was, session) && LogOf(t, was.task) <= LogOf(u, was.task)
    ensures SessionOk(u, starts, session)
  {
    if session.starting.Some? {
      ReportStays(t, u, Owed(was));
    }
  }

  /** The newest claim of a task is one for which nothing was started. */
  lemma OpenedOk(p: System, move: Move)
    requires StartsOk(p) && May(p, move) && move.Open?
    ensures SessionOk(After(p, move).store.t, p.starts, After(p, move).sessions[move.sid])
  {
    var session := After(p, move).sessions[move.sid];
    PlansStartOnce(move.plan);
    ClaimsStep(p.store, StepOf(p, move).value, move.id);
    forall start <- p.starts | start.task == session.task ensures start.claim != session.claim {
      assert ReportedAt(p.store.t, start);
      ClaimsGrow(LogOf(p.store.t, start.task), start.reportedAt);
    }
  }

  lemma AcceptedLogged(t: Tables, id: string, report: TaskReport)
    requires Report(t, id, report).result.Ok?
    ensures LogOf(Report(t, id, report).tables, id) == LogOf(t, id) + [ReportedEvent(report)]
  {}

  /** An accepted started report is the session's first, and newer than all that the log holds. */
  lemma SenderOk(p: System, move: Move)
    requires StartsOk(p) && Numbered(p) && May(p, move) && move.SendNext? && move.sid in After(p, move).sessions
    requires SessionOk(p.store.t, p.starts, p.sessions[move.sid])
    ensures SessionOk(After(p, move).store.t, p.starts, After(p, move).sessions[move.sid])
  {
    var was := p.sessions[move.sid];
    AcceptedLogged(p.store.t, was.task, was.plan[was.sent]);
    SentOk(p.store.t, After(p, move).store.t, p.starts, was);
  }

  lemma SentOk(t: Tables, u: Tables, starts: seq<Start>, was: Session)
    requires SessionOk(t, starts, was) && was.sent < |was.plan| && was.claim <= ClaimsOf(t, was.task)
    requires forall start <- starts :: ReportedAt(t, start)
    requires LogOf(u, was.task) == LogOf(t, was.task) + [ReportedEvent(was.plan[was.sent])]
    ensures SessionOk(u, starts, AfterSending(was, t))
  {
    OneReportMore(was.plan, was.sent + 1);
    if was.plan[was.sent] == StartedReport {
      var log := LogOf(t, was.task);
      assert LogOf(u, was.task)[..|log|] == log;
      forall start <- starts ensures Apart(start, Owed(AfterSending(was, t))) {
        assert ReportedAt(t, start);
      }
    }
  }

  lemma SenderApart(p: System, sid: string, other: string)
    requires Numbered(p) && SessionsOk(p) && sid in p.sessions && p.sessions[sid].sent < |p.sessions[sid].plan|
    requires other in p.sessions && other != sid && p.sessions[other].starting.Some?
    ensures var sender := AfterSending(p.sessions[sid], p.store.t);
      sender.starting.Some? ==> Apart(Owed(sender), Owed(p.sessions[other]))
  {
    assert SessionOk(p.store.t, p.starts, p.sessions[other]);
    assert !SameClaim(p.sessions[sid], p.sessions[other]);
  }

  lemma SessionAfter(p: System, move: Move, sid: string)
    requires Numbered(p) && StartsOk(p) && SessionsOk(p) && May(p, move) && !move.StartAgent?
    requires sid in After(p, move).sessions
    ensures SessionOk(After(p, move).store.t, p.starts, After(p, move).sessions[sid])
  {
    if move.Open? && sid == move.sid {
      OpenedOk(p, move);
    } else {
      SessionsAdvance(p, move, sid);
      assert SessionOk(p.store.t, p.starts, p.sessions[sid]);
      if move.SendNext? && sid == move.sid {
        SenderOk(p, move);
      } else {
        LogsGrow(p, move, p.sessions[sid].task);
        BystanderOk(p.store.t, After(p, move).store.t, p.starts, p.sessions[sid], After(p, move).sessions[sid]);
      }
    }
  }

  lemma PairAfter(p: System, move: Move, a: string, b: string, first: Session, second: Session)
    requires Numbered(p) && SessionsOk(p) && a != b
    requires Advanced(p, move, a, first) && Advanced(p, move, b, second)
    requires first.starting.Some? && second.starting.Some?
    ensures Apart(Owed(first), Owed(second))
  {
    if move.SendNext? && a == move.sid {
      SenderApart(p, a, b);
    } else if move.SendNext? && b == move.sid {
      SenderApart(p, b, a);
    } else {
      assert Apart(Owed(p.sessions[a]), Owed(p.sessions[b]));
    }
  }

  /** The session that starts its agent has its report; no other session is for the same claim. */
  lemma StartKeepsSession(p: System, sid: string, other: string)
    requires Numbered(p) && SessionsOk(p) && May(p, StartAgent(sid)) && other in p.sessions
    ensures var starts := p.starts + [Owed(p.sessions[sid])];
      SessionOk(p.store.t, starts,
                if other == sid then p.sessions[sid].(starting := None) else p.sessions[other])
  {
    var was, session := p.sessions[sid], p.sessions[other];
    assert SessionOk(p.store.t, p.starts, was) && SessionOk(p.store.t, p.starts, session);
    if other == sid {
      assert was.plan[..was.sent][was.sent - 1] == StartedReport;
    } else {
      assert !SameClaim(session, was);
    }
  }

  lemma StartAgentKeeps(p: System, sid: string)
    requires Numbered(p) && StartsOk(p) && SessionsOk(p) && May(p, StartAgent(sid))
    ensures StartsOk(After(p, StartAgent(sid))) && SessionsOk(After(p, StartAgent(sid)))
  {
    var q, was := After(p, StartAgent(sid)), p.sessions[sid];
    OwedIsApart(p, sid);
    assert q.starts == p.starts + [Owed(was)];
    forall other <- q.sessions ensures SessionOk(q.store.t, q.starts, q.sessions[other]) {
      StartKeepsSession(p, sid, other);
    }
  }

  lemma OwedIsApart(p: System, sid: string)
    requires SessionsOk(p) && sid in p.sessions && p.sessions[sid].starting.Some?
    ensures ReportedAt(p.store.t, Owed(p.sessions[sid]))
    ensures forall start <- p.starts :: Apart(start, Owed(p.sessions[sid]))
  {
    assert SessionOk(p.store.t, p.starts, p.sessions[sid]);
  }

  lemma MoveKeepsStarts(p: System, move: Move)
    requires Numbered(p) && StartsOk(p) && SessionsOk(p) && May(p, move)
    ensures StartsOk(After(p, move)) && SessionsOk(After(p, move))
  {
    var q := After(p, move);
    if move.StartAgent? {
      StartAgentKeeps(p, move.sid);
    } else {
      forall start <- q.starts ensures ReportedAt(q.store.t, start) {
        LogsGrow(p, move, start.task);
        ReportStays(p.store.t, q.store.t, start);
      }
      forall sid <- q.sessions ensures SessionOk(q.store.t, q.starts, q.sessions[sid]) {
        SessionAfter(p, move, sid);
      }
      forall a, b | a in q.sessions && b in q.sessions && a != b
                    && q.sessions[a].starting.Some? && q.sessions[b].starting.Some?
        ensures Apart(Owed(q.sessions[a]), Owed(q.sessions[b]))
      {
        SessionsAdvance(p, move, a);
        SessionsAdvance(p, move, b);
        PairAfter(p, move, a, b, q.sessions[a], q.sessions[b]);
      }
    }
  }

  /**
    * In every interleaving each start of an agent comes after a started report that the store
    * has accepted, a report of its own that follows the claim; and for no claim of a task is an
    * agent started twice.
    */
  lemma {:induction false} StartsAreGuarded(p: System, moves: seq<Move>)
    requires p.sessions == map[] && p.starts == [] && Playable(p, moves)
    ensures StartsOk(Play(p, moves)) && SessionsOk(Play(p, moves))
    decreases |moves|
  {
    if moves != [] {
      var before := moves[..|moves| - 1];
      StartsAreGuarded(p, before);
      RunsStayNumbered(p, before);
      MoveKeepsStarts(Play(p, before), moves[|moves| - 1]);
    }
  }

  /** A session that nobody disturbed starts its agent while its task is running. */
  lemma StartsWhileRunning(p: System, moves: seq<Move>, sid: string)
    requires p.sessions == map[] && p.starts == [] && Playable(p, moves)
    requires May(Play(p, moves), StartAgent(sid)) && !Play(p, moves).sessions[sid].disturbed
    ensures var q := Play(p, moves); StatusOf(q.store.t, q.sessions[sid].task) == Some(Running)
  {
    var q := Play(p, moves);
    StartsAreGuarded(p, moves);
    RunsSimulate(p, moves);
    assert SessionOk(q.store.t, q.starts, q.sessions[sid]);
    OwedWhileRunning(q.sessions[sid], q.store, q.starts, q.leaseOf);
  }

  lemma OwedWhileRunning(session: Session, store: State, starts: seq<Start>, leaseOf: string -> nat)
    requires InStep(session, store, leaseOf) && OwingOk(store.t, starts, session) && session.starting.Some?
    ensures store.t.tasks[session.task].status == Running
  {
    LastReportDecides(Claimed, session.plan[..session.sent]);
  }
}
