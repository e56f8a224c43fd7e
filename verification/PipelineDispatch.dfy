/** How many tasks a context thread turns into. */
module PipelineDispatch {
  import opened Wrappers
  import opened Schema
  import opened TaskStore
  import opened TaskRuns
  import opened ThreadStore
  import opened Pipeline
  import opened PipelineRuns
  import opened PipelineRefinement

  /** The task came from the thread: same channel, and created with the agent of the thread's first event. */
  predicate Origin(t: Tables, id: string, thread: string) {
    && id in t.tasks && t.tasks[id].threadId == Some(thread) && thread in t.threads
    && t.tasks[id].channelId == t.threads[thread].channelId
    && LogOf(t, id) != []
    && LogOf(t, id)[0] == CreatedEvent(t.threads[thread].channelId, t.tasks[id].labelName,
                                       Logged(t.threads[thread].agent), Some(thread))
  }

  predicate HasTask(t: Tables, thread: string) {
    exists id <- t.tasks :: t.tasks[id].threadId == Some(thread)
  }

  predicate IsClosing(p: System, thread: string) {
    exists rid <- p.scans :: p.scans[rid].phase.Closing? && p.scans[rid].phase.thread.id == thread
  }

  predicate Traced(t: Tables) {
    && t.taskEvents.Keys <= t.tasks.Keys
    && (forall id <- t.tasks :: t.tasks[id].threadId.Some? ==> Origin(t, id, t.tasks[id].threadId.value))
  }

  predicate SameOrigin(a: TaskRow, b: TaskRow) {
    a.threadId.Some? && a.threadId == b.threadId
  }

  /** A thread has at most one task. */
  ghost predicate AtMostOne(t: Tables) {
    forall a, b :: a in t.tasks && b in t.tasks && SameOrigin(t.tasks[a], t.tasks[b]) ==> a == b
  }

  predicate IsDispatched(t: Tables, thread: string) {
    thread in t.threads && t.threads[thread].status == Dispatched
  }

  /** A thread has a task exactly when it is dispatched, or about to be closed as such. */
  ghost predicate Matched(p: System) {
    forall id <- p.store.t.threads :: HasTask(p.store.t, id) <==> IsDispatched(p.store.t, id) || IsClosing(p, id)
  }

  /** No scan works on a dispatched thread. */
  predicate ScansUndispatched(p: System) {
    forall rid <- p.scans :: !p.scans[rid].phase.Idle? ==> !IsDispatched(p.store.t, p.scans[rid].phase.thread.id)
  }

  ghost predicate DispatchOk(p: System) {
    Traced(p.store.t) && AtMostOne(p.store.t) && Matched(p) && ScansUndispatched(p)
  }

  /** No call is between creating a task and closing its thread. */
  predicate NoneClosing(p: System) {
    forall rid <- p.scans :: !p.scans[rid].phase.Closing?
  }

  /**
    * What keeps threads and tasks matched. The check that is missing before interpretThread: the
    * thread has not been dispatched in the meantime. And no restart of the process between
    * creating a task and closing its thread.
    */
  ghost predicate Guarded(p: System, move: Move) {
    && (move.Begin? && May(p, move) ==>
          var thread := p.scans[move.rid].due[0];
          thread.id in p.inFlight || !IsDispatched(p.store.t, thread.id))
    && (move.Restart? ==> NoneClosing(p))
  }

  ghost predicate GuardedRun(p: System, moves: seq<Move>)
    requires Playable(p, moves)
    decreases |moves|
  {
    moves == [] ||
    (GuardedRun(p, moves[..|moves| - 1]) && Guarded(Play(p, moves[..|moves| - 1]), moves[|moves| - 1]))
  }

  // ----- Origins, in any run -----

  /** Threads change, tasks do not: origins stay. */
  lemma TracedGrows(t: Tables, u: Tables)
    requires Traced(t) && Grows(t, u) && u.tasks == t.tasks && u.taskEvents == t.taskEvents
    ensures Traced(u)
  {
    forall id <- u.tasks | u.tasks[id].threadId.Some? ensures Origin(u, id, u.tasks[id].threadId.value) {
      assert Origin(t, id, t.tasks[id].threadId.value);
    }
  }

  lemma CreationFrame(t: Tables, scan: Scan, taskId: string, ref: string, now: int)
    requires scan.phase.Dispatching?
    ensures var created := Dispatch(t, scan.channelId, scan.phase, taskId, ref, now);
      && created.tables.threads == t.threads
      && (created.result.Err? ==> created.tables.tasks == t.tasks && created.tables.taskEvents == t.taskEvents)
      && (created.result.Ok? ==>
            && taskId !in t.tasks && created.tables.tasks.Keys == t.tasks.Keys + {taskId}
            && created.tables.tasks[taskId].channelId == scan.channelId
            && created.tables.tasks[taskId].threadId == Some(scan.phase.thread.id)
            && created.tables.taskEvents == t.taskEvents[taskId := LogOf(t, taskId)
                 + [CreatedEvent(scan.channelId, created.tables.tasks[taskId].labelName,
                                 Logged(scan.phase.thread.agent), Some(scan.phase.thread.id))]]
            && forall id <- t.tasks :: created.tables.tasks[id] == t.tasks[id])
  {}

  lemma CreationKeepsTraced(t: Tables, scan: Scan, taskId: string, ref: string, now: int)
    requires Traced(t) && scan.phase.Dispatching? && ReadingOk(t, scan.channelId, scan.phase.thread)
    ensures Traced(Dispatch(t, scan.channelId, scan.phase, taskId, ref, now).tables)
  {
    CreationFrame(t, scan, taskId, ref, now);
    var u := Dispatch(t, scan.channelId, scan.phase, taskId, ref, now).tables;
    forall id <- u.tasks | u.tasks[id].threadId.Some? ensures Origin(u, id, u.tasks[id].threadId.value) {
      if id in t.tasks {
        assert Origin(t, id, t.tasks[id].threadId.value);
      } else {
        assert LogOf(t, id) == [];
      }
    }
  }

  lemma TaskMoveTraced(p: System, move: Move)
    requires Traced(p.store.t) && May(p, move) && move.TaskMove?
    ensures Traced(After(p, move).store.t)
  {
    var t, u := p.store.t, Apply(p.store, move.step).t;
    TaskStepsFrame(p.store, move.step);
    LogsBelongToTasks(p.store, move.step);
    forall id <- u.tasks | u.tasks[id].threadId.Some? ensures Origin(u, id, u.tasks[id].threadId.value) {
      if id in t.tasks {
        IdentityKept(p.store, move.step, id);
        assert Origin(t, id, t.tasks[id].threadId.value);
      } else {
        OnlyCreationAdds(p.store, move.step, id);
      }
    }
  }

  lemma CreateTaskTraced(p: System, move: Move)
    requires ThreadsOk(p) && Traced(p.store.t) && May(p, move) && move.CreateTask?
    ensures Traced(After(p, move).store.t)
  {
    assert PhaseOk(p.store.t, p.inFlight, p.scans[move.rid]);
    CreationKeepsTraced(p.store.t, p.scans[move.rid], move.taskId, move.ref, p.store.now);
  }

  /** Other moves leave tasks alone and keep what a task's origin depends on. */
  lemma ThreadMoveGrows(p: System, move: Move)
    requires ThreadsOk(p) && May(p, move) && !move.TaskMove? && !move.CreateTask?
    ensures var t, u := p.store.t, After(p, move).store.t;
      Grows(t, u) && u.tasks == t.tasks && u.taskEvents == t.taskEvents
  {
    match move
    case Ingest(_, _, _, _, _) => IngestGrows(p, move);
    case Expire(channelId, ttlSeconds) => ExpireGrows(p, channelId, ttlSeconds);
    case Answer(rid, verdict) => AnswerGrows(p, rid, verdict);
    case CloseThread(rid) => CloseGrows(p, rid);
    case _ => ScanMoveGrows(p, move);
  }

  lemma IngestGrows(p: System, move: Move)
    requires ThreadsOk(p) && May(p, move) && move.Ingest?
    ensures var t, u := p.store.t, After(p, move).store.t;
      Grows(t, u) && u.tasks == t.tasks && u.taskEvents == t.taskEvents
  {
    AppendGrows(p.store.t, move.id, move.channelId, move.contextKey, move.payload, move.agent, p.store.now);
  }

  lemma ExpireGrows(p: System, channelId: string, ttlSeconds: nat)
    ensures var t, u := p.store.t, After(p, Expire(channelId, ttlSeconds)).store.t;
      Grows(t, u) && u.tasks == t.tasks && u.taskEvents == t.taskEvents
  {}

  lemma CloseGrows(p: System, rid: string)
    requires May(p, CloseThread(rid))
    ensures var t, u := p.store.t, After(p, CloseThread(rid)).store.t;
      Grows(t, u) && u.tasks == t.tasks && u.taskEvents == t.taskEvents
  {
    CloseOne(p.store.t, p.scans[rid].phase.thread.id, Dispatched);
  }

  lemma ScanMoveGrows(p: System, move: Move)
    requires May(p, move)
    requires move.StartScan? || move.Begin? || move.Fail? || move.EndScan? || move.Reconfigure? || move.Restart?
    ensures var t, u := p.store.t, After(p, move).store.t;
      Grows(t, u) && u.tasks == t.tasks && u.taskEvents == t.taskEvents
  {}

  lemma AnswerGrows(p: System, rid: string, verdict: InterpretVerdict)
    requires ThreadsOk(p) && May(p, Answer(rid, verdict))
    ensures var t, u := p.store.t, After(p, Answer(rid, verdict)).store.t;
      Grows(t, u) && u.tasks == t.tasks && u.taskEvents == t.taskEvents
  {
    assert PhaseOk(p.store.t, p.inFlight, p.scans[rid]);
    AnswerFrame(p, Answer(rid, verdict));
    JudgedGrows(p.store.t, p.scans[rid].channelId, p.scans[rid].phase.thread, verdict);
  }

  lemma JudgedGrows(t: Tables, channelId: string, thread: DueThread, verdict: InterpretVerdict)
    requires CountersOk(t) && ReadingOk(t, channelId, thread)
    ensures var u := Judge(t, thread, verdict).0;
      Grows(t, u) && u.tasks == t.tasks && u.taskEvents == t.taskEvents
  {
    JudgeOne(t, thread, verdict);
    JudgeGrows(t, channelId, thread, verdict);
  }

  lemma MoveKeepsTraced(p: System, move: Move)
    requires ThreadsOk(p) && Traced(p.store.t) && May(p, move)
    ensures Traced(After(p, move).store.t)
  {
    if move.TaskMove? {
      TaskMoveTraced(p, move);
    } else if move.CreateTask? {
      CreateTaskTraced(p, move);
    } else {
      ThreadMoveGrows(p, move);
      TracedGrows(p.store.t, After(p, move).store.t);
    }
  }

  /** In every run, overlapping calls included, a task that names a thread stems from it, and so from its channel. */
  lemma {:induction false} RunsAreTraced(p: System, moves: seq<Move>)
    requires ThreadsOk(p) && Traced(p.store.t) && Playable(p, moves)
    ensures Traced(Play(p, moves).store.t)
    decreases |moves|
  {
    if moves != [] {
      var before, move := moves[..|moves| - 1], moves[|moves| - 1];
      RunsAreTraced(p, before);
      RunsKeepThreads(p, before);
      MoveKeepsTraced(Play(p, before), move);
    }
  }

  // ----- Each move keeps threads and tasks matched -----

  /** Without a new task, closing or dispatch the match stays. */
  lemma StillMatched(p: System, q: System)
    requires Matched(p) && q.store.t.tasks == p.store.t.tasks
    requires forall x :: IsClosing(q, x) == IsClosing(p, x)
    requires forall x <- q.store.t.threads :: IsDispatched(q.store.t, x) == IsDispatched(p.store.t, x)
    requires forall x <- q.store.t.threads :: x !in p.store.t.threads ==> !HasTask(p.store.t, x) && !IsClosing(p, x)
    ensures Matched(q)
  {
    forall x <- q.store.t.threads
      ensures HasTask(q.store.t, x) <==> IsDispatched(q.store.t, x) || IsClosing(q, x)
    {
      assert HasTask(q.store.t, x) == HasTask(p.store.t, x);
    }
  }

  /** The closing scans of `p` are those of `q`. */
  lemma SameClosings(p: System, q: System)
    requires forall rid <- p.scans :: p.scans[rid].phase.Closing? ==>
               rid in q.scans && q.scans[rid].phase == p.scans[rid].phase
    requires forall rid <- q.scans :: q.scans[rid].phase.Closing? ==>
               rid in p.scans && p.scans[rid].phase == q.scans[rid].phase
    ensures forall x :: IsClosing(q, x) == IsClosing(p, x)
  {}

  /** A thread that is not stored yet has no task and no scan. */
  lemma UnknownThreadIsFree(p: System, thread: string)
    requires ThreadsOk(p) && Traced(p.store.t) && thread !in p.store.t.threads
    ensures !HasTask(p.store.t, thread) && !IsClosing(p, thread)
  {
    forall rid <- p.scans | !p.scans[rid].phase.Idle? ensures p.scans[rid].phase.thread.id != thread {
      assert PhaseOk(p.store.t, p.inFlight, p.scans[rid]);
    }
    forall id <- p.store.t.tasks ensures p.store.t.tasks[id].threadId != Some(thread) {
      assert p.store.t.tasks[id].threadId.Some? ==> Origin(p.store.t, id, p.store.t.tasks[id].threadId.value);
    }
  }

  lemma IngestMatches(p: System, move: Move)
    requires ThreadsOk(p) && DispatchOk(p) && May(p, move) && move.Ingest?
    ensures DispatchOk(After(p, move))
  {
    var q := After(p, move);
    MoveKeepsTraced(p, move);
    if move.id !in p.store.t.threads {
      UnknownThreadIsFree(p, move.id);
    }
    SameClosings(p, q);
    StillMatched(p, q);
  }

  lemma ExpireMatches(p: System, move: Move)
    requires ThreadsOk(p) && DispatchOk(p) && May(p, move) && move.Expire?
    ensures DispatchOk(After(p, move))
  {
    var q := After(p, move);
    MoveKeepsTraced(p, move);
    SameClosings(p, q);
    StillMatched(p, q);
  }

  lemma ScanningMatches(p: System, move: Move)
    requires DispatchOk(p) && May(p, move) && Guarded(p, move)
    requires move.StartScan? || move.Begin? || move.Fail? || move.EndScan?
    ensures DispatchOk(After(p, move))
  {
    var q := After(p, move);
    SameClosings(p, q);
    StillMatched(p, q);
  }

  lemma ReconfigureMatches(p: System, move: Move)
    requires DispatchOk(p) && May(p, move) && move.Reconfigure?
    ensures DispatchOk(After(p, move))
  {
    var q := After(p, move);
    TracedGrows(p.store.t, q.store.t);
    SameClosings(p, q);
    StillMatched(p, q);
  }

  /**
    * A restart of the process forgets the calls. Threads and tasks stay matched exactly when no
    * call was between creating a task and closing its thread.
    */
  lemma RestartMatches(p: System)
    requires ThreadsOk(p) && DispatchOk(p)
    ensures DispatchOk(After(p, Restart)) <==> NoneClosing(p)
  {
    var q := After(p, Restart);
    if NoneClosing(p) {
      StillMatched(p, q);
    } else {
      var rid :| rid in p.scans && p.scans[rid].phase.Closing?;
      var thread := p.scans[rid].phase.thread.id;
      assert PhaseOk(p.store.t, p.inFlight, p.scans[rid]);
      assert IsClosing(p, thread) && HasTask(p.store.t, thread) && !IsDispatched(q.store.t, thread);
      assert !IsClosing(q, thread);
    }
  }

  /** One scan goes from interpreting to a later phase, and no thread changes to or from dispatched. */
  lemma AnsweredMatches(p: System, q: System, rid: string)
    requires DispatchOk(p) && Traced(q.store.t) && q.store.t.tasks == p.store.t.tasks
    requires q.store.t.threads.Keys == p.store.t.threads.Keys
    requires forall x :: IsDispatched(q.store.t, x) == IsDispatched(p.store.t, x)
    requires rid in p.scans && p.scans[rid].phase.Interpreting?
    requires q.scans.Keys == p.scans.Keys && forall r <- p.scans :: r != rid ==> q.scans[r] == p.scans[r]
    requires !q.scans[rid].phase.Closing?
    requires !q.scans[rid].phase.Idle? ==> q.scans[rid].phase.thread == p.scans[rid].phase.thread
    ensures DispatchOk(q)
  {
    SameClosings(p, q);
    StillMatched(p, q);
  }

  lemma AnswerMatches(p: System, move: Move)
    requires ThreadsOk(p) && DispatchOk(p) && May(p, move) && move.Answer?
    ensures DispatchOk(After(p, move))
  {
    MoveKeepsTraced(p, move);
    JudgeStatus(p.store.t, p.scans[move.rid].phase.thread, move.verdict);
    AnswerFrame(p, move);
    AnsweredMatches(p, After(p, move), move.rid);
  }

  lemma AnswerFrame(p: System, move: Move)
    requires May(p, move) && move.Answer?
    ensures After(p, move).store.t == Judge(p.store.t, p.scans[move.rid].phase.thread, move.verdict).0
    ensures After(p, move).scans.Keys == p.scans.Keys
    ensures forall rid <- p.scans :: rid != move.rid ==> After(p, move).scans[rid] == p.scans[rid]
    ensures var phase := After(p, move).scans[move.rid].phase;
      !phase.Closing? && (!phase.Idle? ==> phase.thread == p.scans[move.rid].phase.thread)
  {}

  lemma JudgeStatus(t: Tables, thread: DueThread, verdict: InterpretVerdict)
    requires !IsDispatched(t, thread.id)
    ensures var u := Judge(t, thread, verdict).0;
      u.tasks == t.tasks && u.taskEvents == t.taskEvents && u.threads.Keys == t.threads.Keys
      && forall x :: IsDispatched(u, x) == IsDispatched(t, x)
  {
    JudgeOne(t, thread, verdict);
  }

  lemma Closings(p: System, q: System, rid: string, thread: string)
    requires rid in p.scans && rid in q.scans && q.scans - {rid} == p.scans - {rid}
    requires !p.scans[rid].phase.Closing? && q.scans[rid].phase.Closing? && q.scans[rid].phase.thread.id == thread
    ensures forall x :: IsClosing(q, x) <==> IsClosing(p, x) || x == thread
  {
    forall x | IsClosing(p, x) ensures IsClosing(q, x) {
      var r :| r in p.scans && p.scans[r].phase.Closing? && p.scans[r].phase.thread.id == x;
      assert r in p.scans - {rid} && q.scans[r] == p.scans[r];
    }
    forall x | IsClosing(q, x) && x != thread ensures IsClosing(p, x) {
      var r :| r in q.scans && q.scans[r].phase.Closing? && q.scans[r].phase.thread.id == x;
      assert r in q.scans - {rid} && q.scans[r] == p.scans[r];
    }
  }

  /** The thread a scan dispatches has no task yet: it is not dispatched, and no other scan holds it. */
  lemma DispatchedThreadIsFree(p: System, rid: string)
    requires ThreadsOk(p) && DispatchOk(p) && rid in p.scans && p.scans[rid].phase.Dispatching?
    ensures p.scans[rid].phase.thread.id in p.store.t.threads
    ensures !HasTask(p.store.t, p.scans[rid].phase.thread.id)
  {
    assert PhaseOk(p.store.t, p.inFlight, p.scans[rid]);
  }

  /** Creating the task of a free thread. */
  lemma CreationAtMostOne(t: Tables, scan: Scan, taskId: string, ref: string, now: int)
    requires AtMostOne(t) && scan.phase.Dispatching? && !HasTask(t, scan.phase.thread.id)
    ensures AtMostOne(Dispatch(t, scan.channelId, scan.phase, taskId, ref, now).tables)
  {
    CreationFrame(t, scan, taskId, ref, now);
  }

  lemma CreateTaskMatches(p: System, move: Move)
    requires ThreadsOk(p) && DispatchOk(p) && May(p, move) && move.CreateTask?
    ensures DispatchOk(After(p, move))
  {
    var rid := move.rid;
    DispatchedThreadIsFree(p, rid);
    MoveKeepsTraced(p, move);
    CreationAtMostOne(p.store.t, p.scans[rid], move.taskId, move.ref, p.store.now);
    if Dispatch(p.store.t, p.scans[rid].channelId, p.scans[rid].phase, move.taskId, move.ref, p.store.now).result.Ok? {
      CreatedMatches(p, move);
    } else {
      NotCreatedMatches(p, move);
    }
  }

  lemma CreatedMatches(p: System, move: Move)
    requires ThreadsOk(p) && DispatchOk(p) && May(p, move) && move.CreateTask?
    requires Dispatch(p.store.t, p.scans[move.rid].channelId, p.scans[move.rid].phase, move.taskId, move.ref,
                      p.store.now).result.Ok?
    ensures Matched(After(p, move)) && ScansUndispatched(After(p, move))
  {
    assert PhaseOk(p.store.t, p.inFlight, p.scans[move.rid]);
    CreationFrame(p.store.t, p.scans[move.rid], move.taskId, move.ref, p.store.now);
    NowClosing(p, After(p, move), move.rid, move.taskId);
  }

  lemma NotCreatedMatches(p: System, move: Move)
    requires ThreadsOk(p) && DispatchOk(p) && May(p, move) && move.CreateTask?
    requires Dispatch(p.store.t, p.scans[move.rid].channelId, p.scans[move.rid].phase, move.taskId, move.ref,
                      p.store.now).result.Err?
    ensures Matched(After(p, move)) && ScansUndispatched(After(p, move))
  {
    CreationFrame(p.store.t, p.scans[move.rid], move.taskId, move.ref, p.store.now);
    SameClosings(p, After(p, move));
    StillMatched(p, After(p, move));
  }

  /** A free thread gets its task, and its scan is about to close it. */
  lemma NowClosing(p: System, q: System, rid: string, taskId: string)
    requires Matched(p) && rid in p.scans && !p.scans[rid].phase.Closing? && !p.scans[rid].phase.Idle?
    requires q.store.t.threads == p.store.t.threads && q.store.t.tasks.Keys == p.store.t.tasks.Keys + {taskId}
    requires q.store.t.tasks[taskId].threadId == Some(p.scans[rid].phase.thread.id) && taskId !in p.store.t.tasks
    requires forall id <- p.store.t.tasks :: q.store.t.tasks[id] == p.store.t.tasks[id]
    requires q.scans == p.scans[rid := p.scans[rid].(phase := Closing(p.scans[rid].phase.thread))]
    ensures Matched(q)
  {
    var thread := p.scans[rid].phase.thread.id;
    Closings(p, q, rid, thread);
    forall x <- q.store.t.threads
      ensures HasTask(q.store.t, x) <==> IsDispatched(q.store.t, x) || IsClosing(q, x)
    {
      assert HasTask(q.store.t, x) <==> HasTask(p.store.t, x) || x == thread;
    }
  }

  lemma CloseThreadMatches(p: System, move: Move)
    requires ThreadsOk(p) && DispatchOk(p) && May(p, move) && move.CloseThread?
    ensures DispatchOk(After(p, move))
  {
    var t, rid := p.store.t, move.rid;
    var thread := p.scans[rid].phase.thread.id;
    assert PhaseOk(t, p.inFlight, p.scans[rid]);
    MoveKeepsTraced(p, move);
    NowDispatched(p, After(p, move), rid);
  }

  /** A thread about to be closed becomes dispatched, and its scan lets go of it. */
  lemma NowDispatched(p: System, q: System, rid: string)
    requires ThreadsOk(p) && DispatchOk(p) && rid in p.scans && p.scans[rid].phase.Closing?
    requires q.store.t == Close(p.store.t, p.scans[rid].phase.thread.id, Dispatched)
    requires q.scans == p.scans[rid := p.scans[rid].(phase := Idle)]
    ensures Matched(q) && ScansUndispatched(q)
  {
    var thread := p.scans[rid].phase.thread.id;
    assert PhaseOk(p.store.t, p.inFlight, p.scans[rid]);
    OnlyCloser(p, q, rid);
    Closings(q, p, rid, thread);
    CloseDispatches(p.store.t, thread);
    forall x <- q.store.t.threads
      ensures HasTask(q.store.t, x) <==> IsDispatched(q.store.t, x) || IsClosing(q, x)
    {
      assert HasTask(q.store.t, x) == HasTask(p.store.t, x);
    }
    forall r <- q.scans | !q.scans[r].phase.Idle? ensures !IsDispatched(q.store.t, q.scans[r].phase.thread.id) {
      assert r != rid && q.scans[r] == p.scans[r];
    }
  }

  lemma CloseDispatches(t: Tables, thread: string)
    requires thread in t.threads
    ensures forall x :: IsDispatched(Close(t, thread, Dispatched), x) <==> IsDispatched(t, x) || x == thread
  {}

  /** Two scans never hold the same thread: once one lets go, nobody is closing it. */
  lemma OnlyCloser(p: System, q: System, rid: string)
    requires ThreadsOk(p) && rid in p.scans && !p.scans[rid].phase.Idle?
    requires q.scans == p.scans[rid := p.scans[rid].(phase := Idle)]
    ensures !IsClosing(q, p.scans[rid].phase.thread.id)
  {
    forall r <- q.scans | q.scans[r].phase.Closing? ensures q.scans[r].phase.thread.id != p.scans[rid].phase.thread.id {
      assert r != rid && q.scans[r] == p.scans[r];
    }
  }

  /** Task steps leave the tie between tasks and threads alone. */
  lemma TaskMoveMatches(p: System, move: Move)
    requires DispatchOk(p) && May(p, move) && move.TaskMove?
    ensures DispatchOk(After(p, move))
  {
    var t, u, q := p.store.t, Apply(p.store, move.step).t, After(p, move);
    TaskStepsFrame(p.store, move.step);
    TaskMoveTraced(p, move);
    forall id <- u.tasks
      ensures if id in t.tasks then u.tasks[id].threadId == t.tasks[id].threadId else u.tasks[id].threadId.None?
    {
      if id in t.tasks {
        IdentityKept(p.store, move.step, id);
      } else {
        OnlyCreationAdds(p.store, move.step, id);
      }
    }
    forall id <- t.tasks ensures id in u.tasks {
      IdentityKept(p.store, move.step, id);
    }
    SameClosings(p, q);
    forall x ensures HasTask(u, x) == HasTask(t, x) {
      if HasTask(t, x) {
        var id :| id in t.tasks && t.tasks[id].threadId == Some(x);
        assert u.tasks[id].threadId == Some(x);
      }
    }
  }

  lemma MoveKeepsDispatch(p: System, move: Move)
    requires ThreadsOk(p) && DispatchOk(p) && May(p, move) && Guarded(p, move)
    ensures DispatchOk(After(p, move))
  {
    match move
    case Ingest(_, _, _, _, _) => IngestMatches(p, move);
    case Expire(_, _) => ExpireMatches(p, move);
    case Answer(_, _) => AnswerMatches(p, move);
    case CreateTask(_, _, _) => CreateTaskMatches(p, move);
    case CloseThread(_) => CloseThreadMatches(p, move);
    case TaskMove(_) => TaskMoveMatches(p, move);
    case Reconfigure(_) => ReconfigureMatches(p, move);
    case Restart => RestartMatches(p);
    case _ => ScanningMatches(p, move);
  }

  lemma {:induction false} GuardedRunsDispatchOnce(p: System, moves: seq<Move>)
    requires ThreadsOk(p) && DispatchOk(p) && Playable(p, moves) && GuardedRun(p, moves)
    ensures ThreadsOk(Play(p, moves)) && DispatchOk(Play(p, moves))
    decreases |moves|
  {
    RunsKeepThreads(p, moves);
    if moves != [] {
      var before := moves[..|moves| - 1];
      GuardedRunsDispatchOnce(p, before);
      MoveKeepsDispatch(Play(p, before), moves[|moves| - 1]);
    }
  }

  // ----- One runDue call at a time per channel -----

  predicate NoScanOf(p: System, channelId: string) {
    forall rid <- p.scans :: p.scans[rid].channelId != channelId
  }

  /** A scan starts only while its channel has no other, and no restart cuts a dispatch in two. */
  ghost predicate SoloMove(p: System, move: Move) {
    (move.StartScan? ==> NoScanOf(p, move.channelId)) && (move.Restart? ==> NoneClosing(p))
  }

  ghost predicate SoloRun(p: System, moves: seq<Move>)
    requires Playable(p, moves)
    decreases |moves|
  {
    moves == [] ||
    (SoloRun(p, moves[..|moves| - 1]) && SoloMove(Play(p, moves[..|moves| - 1]), moves[|moves| - 1]))
  }

  /** Channels have a scan each, and what a scan still has to look at is not dispatched. */
  ghost predicate Solo(p: System) {
    && (forall a, b :: a in p.scans && b in p.scans && p.scans[a].channelId == p.scans[b].channelId ==> a == b)
    && (forall rid <- p.scans, thread <- p.scans[rid].due :: !IsDispatched(p.store.t, thread.id))
  }

  /** Where the guarantee of one task per thread can start: the empty database, and what it leads to. */
  ghost predicate Sound(p: System) {
    ThreadsOk(p) && DispatchOk(p) && Solo(p)
  }

  lemma FreshIsSound(p: System)
    requires PipelineRuns.Fresh(p) && p.store.t.taskEvents == map[]
    ensures Sound(p)
  {}

  lemma AppendDispatches(t: Tables, id: string, channelId: string, contextKey: string, payload: string,
                         agent: Option<string>, now: int, thread: string)
    requires IsDispatched(Append(t, id, channelId, contextKey, payload, agent, now), thread)
    ensures IsDispatched(t, thread)
  {}

  lemma JudgeDispatches(t: Tables, read: DueThread, verdict: InterpretVerdict, thread: string)
    requires IsDispatched(Judge(t, read, verdict).0, thread)
    ensures IsDispatched(t, thread)
  {}

  /** Only the closing at the end of a dispatch makes a thread dispatched. */
  lemma OnlyClosingDispatches(p: System, move: Move, thread: string)
    requires May(p, move) && IsDispatched(After(p, move).store.t, thread) && !IsDispatched(p.store.t, thread)
    ensures move.CloseThread? && p.scans[move.rid].phase.thread.id == thread
  {
    match move
    case Ingest(id, channelId, contextKey, payload, agent) =>
      AppendDispatches(p.store.t, id, channelId, contextKey, payload, agent, p.store.now, thread);
    case Answer(rid, verdict) =>
      AnswerFrame(p, move);
      JudgeDispatches(p.store.t, p.scans[rid].phase.thread, verdict, thread);
    case TaskMove(step) => TaskStepsFrame(p.store, step);
    case CreateTask(rid, taskId, ref) =>
      DispatchFrame(p.store.t, p.scans[rid].channelId, p.scans[rid].phase, taskId, ref, p.store.now);
    case _ =>
  }

  /** What a move does to the due lists: a new scan brings its own, the others only get shorter. */
  lemma DueLists(p: System, move: Move, rid: string)
    requires May(p, move) && rid in After(p, move).scans
    ensures var scan := After(p, move).scans[rid];
      if move.StartScan? && rid == move.rid
      then scan == Scan(move.channelId, ReadRows(p.store.t, move.order), Idle)
      else
        && rid in p.scans && scan.channelId == p.scans[rid].channelId
        && forall thread <- scan.due :: thread in p.scans[rid].due
  {}

  lemma SoloDue(p: System, move: Move, rid: string, thread: DueThread)
    requires ThreadsOk(p) && Solo(p) && May(p, move)
    requires rid in After(p, move).scans && thread in After(p, move).scans[rid].due
    ensures !IsDispatched(After(p, move).store.t, thread.id)
  {
    DueLists(p, move, rid);
    if move.StartScan? && rid == move.rid {
      var i :| 0 <= i < |move.order| && thread.id == move.order[i];
      assert move.order[i] in DueSet(p.store.t, move.channelId, move.debounceMs, p.store.now);
    } else {
      assert DueOk(p.store.t, p.scans[rid]) && thread in p.scans[rid].due;
      if move.CloseThread? {
        assert PhaseOk(p.store.t, p.inFlight, p.scans[move.rid]);
        assert p.scans[move.rid].phase.thread.id != thread.id;
      }
      if IsDispatched(After(p, move).store.t, thread.id) {
        OnlyClosingDispatches(p, move, thread.id);
      }
    }
  }

  lemma MoveKeepsSolo(p: System, move: Move)
    requires ThreadsOk(p) && Solo(p) && May(p, move)
    requires move.StartScan? ==> NoScanOf(p, move.channelId)
    ensures Solo(After(p, move))
  {
    var q := After(p, move);
    forall rid <- q.scans, thread <- q.scans[rid].due ensures !IsDispatched(q.store.t, thread.id) {
      SoloDue(p, move, rid, thread);
    }
    forall a, b | a in q.scans && b in q.scans && q.scans[a].channelId == q.scans[b].channelId ensures a == b {
      DueLists(p, move, a);
      DueLists(p, move, b);
    }
  }

  lemma {:induction false} SoloRunsAreGuarded(p: System, moves: seq<Move>)
    requires ThreadsOk(p) && Solo(p) && Playable(p, moves) && SoloRun(p, moves)
    ensures Solo(Play(p, moves)) && GuardedRun(p, moves)
    decreases |moves|
  {
    if moves != [] {
      var before, move := moves[..|moves| - 1], moves[|moves| - 1];
      SoloRunsAreGuarded(p, before);
      RunsKeepThreads(p, before);
      MoveKeepsSolo(Play(p, before), move);
      if move.Begin? {
        assert Play(p, before).scans[move.rid].due[0] in Play(p, before).scans[move.rid].due;
      }
    }
  }

  /**
    * While no two runDue calls of a channel overlap, every thread yields at most one task,
    * whatever is ingested, expired or done to tasks in between; and each dispatched thread has
    * its task, in its own channel, created with the agent its first event named.
    */
  lemma OneTaskPerThread(p: System, moves: seq<Move>)
    requires Sound(p) && Playable(p, moves) && SoloRun(p, moves)
    ensures Sound(Play(p, moves))
    ensures var t := Play(p, moves).store.t;
      && AtMostOne(t)
      && (forall id <- t.tasks :: t.tasks[id].threadId.Some? ==> Origin(t, id, t.tasks[id].threadId.value))
      && (forall thread <- t.threads :: t.threads[thread].status == Dispatched ==>
            exists id <- t.tasks :: Origin(t, id, thread))
  {
    SoloRunsAreGuarded(p, moves);
    GuardedRunsDispatchOnce(p, moves);
    var t := Play(p, moves).store.t;
    forall thread <- t.threads | t.threads[thread].status == Dispatched
      ensures exists id <- t.tasks :: Origin(t, id, thread)
    {
      assert HasTask(t, thread);
      var id :| id in t.tasks && t.tasks[id].threadId == Some(thread);
      assert Origin(t, id, thread);
    }
  }

  // ----- Where overlapping calls go wrong -----

  /** A thread that is dispatched gets the task named, and is closed. */
  lemma DispatchEffect(t: Tables, channelId: string, thread: DueThread, labelName: string, instruction: string,
                       taskId: string, ref: string, now: int)
    requires channelId in t.channels && thread.id in t.threads && taskId !in t.tasks && ref !in t.payloads
    ensures var turn := Turn(Some(FastPass(labelName, instruction)), taskId, ref);
      var (u, ok) := Interpret(t, channelId, thread, turn, now);
      && ok && IsDispatched(u, thread.id) && u.channels == t.channels
      && taskId in u.tasks && u.tasks[taskId].threadId == Some(thread.id)
      && u.tasks == t.tasks[taskId := u.tasks[taskId]] && u.payloads.Keys == t.payloads.Keys + {ref}
  {}

  /** One more task of a thread is one too many exactly when it has one. */
  lemma OneMoreTask(t: Tables, u: Tables, taskId: string, thread: string)
    requires AtMostOne(t) && taskId !in t.tasks && taskId in u.tasks && u.tasks[taskId].threadId == Some(thread)
    requires u.tasks == t.tasks[taskId := u.tasks[taskId]]
    ensures AtMostOne(u) <==> !HasTask(t, thread)
  {
    if HasTask(t, thread) {
      var other :| other in t.tasks && t.tasks[other].threadId == Some(thread);
      assert u.tasks[other].threadId == u.tasks[taskId].threadId && other != taskId;
    }
  }

  lemma IdleThreadIsNotClosing(p: System, thread: string)
    requires ThreadsOk(p) && thread !in p.inFlight
    ensures !IsClosing(p, thread)
  {
    forall rid <- p.scans | !p.scans[rid].phase.Idle? ensures p.scans[rid].phase.thread.id != thread {
      assert PhaseOk(p.store.t, p.inFlight, p.scans[rid]);
    }
  }

  /**
    * Interpreting a thread that has been dispatched in the meantime gives it a second task, as
    * soon as the verdict is to dispatch: the guard is exactly what is missing.
    */
  lemma UnguardedBeginDuplicates(p: System, rid: string, labelName: string, instruction: string,
                                 taskId: string, ref: string)
    returns (moves: seq<Move>)
    requires ThreadsOk(p) && DispatchOk(p) && May(p, Begin(rid))
    requires p.scans[rid].channelId in p.store.t.channels
    requires taskId !in p.store.t.tasks && ref !in p.store.t.payloads && p.scans[rid].due[0].id !in p.inFlight
    ensures Playable(p, moves) && (AtMostOne(Play(p, moves).store.t) <==> Guarded(p, Begin(rid)))
  {
    var t, channelId, thread := p.store.t, p.scans[rid].channelId, p.scans[rid].due[0];
    assert DueOk(t, p.scans[rid]) && ReadingOk(t, channelId, thread);
    moves := TurnIsARun(p, rid, Turn(Some(FastPass(labelName, instruction)), taskId, ref));
    DispatchEffect(t, channelId, thread, labelName, instruction, taskId, ref, p.store.now);
    IdleThreadIsNotClosing(p, thread.id);
    assert HasTask(t, thread.id) == IsDispatched(t, thread.id);
    OneMoreTask(t, Play(p, moves).store.t, taskId, thread.id);
  }

  /** The first call is inside the interpreter with the first thread, the second has skipped it. */
  lemma BothCallsHold(p: System, channelId: string, debounceMs: nat, order: seq<string>) returns (moves: seq<Move>)
    requires p.scans == map[] && p.inFlight == {} && order != []
    requires May(p, StartScan("first", channelId, debounceMs, order))
    ensures Playable(p, moves)
    ensures var due := ReadRows(p.store.t, order);
      Play(p, moves) == p.(inFlight := {order[0]}, scans := map[
        "first" := Scan(channelId, due[1..], Interpreting(due[0], ThreadEventsOf(p.store.t, order[0]))),
        "second" := Scan(channelId, due[1..], Idle)])
  {
    moves := FirstCallHolds(p, channelId, debounceMs, order);
    var start := StartScan("second", channelId, debounceMs, order);
    PlaySnoc(p, moves, start);
    PlaySnoc(p, moves + [start], Begin("second"));
    moves := moves + [start] + [Begin("second")];
  }

  lemma FirstCallHolds(p: System, channelId: string, debounceMs: nat, order: seq<string>) returns (moves: seq<Move>)
    requires p.scans == map[] && p.inFlight == {} && order != []
    requires May(p, StartScan("first", channelId, debounceMs, order))
    ensures Playable(p, moves)
    ensures var due := ReadRows(p.store.t, order);
      Play(p, moves) == p.(inFlight := {order[0]}, scans := map[
        "first" := Scan(channelId, due[1..], Interpreting(due[0], ThreadEventsOf(p.store.t, order[0])))])
  {
    var start := StartScan("first", channelId, debounceMs, order);
    assert [] + [start] == [start];
    PlaySnoc(p, [], start);
    PlaySnoc(p, [start], Begin("first"));
    moves := [start] + [Begin("first")];
  }

  /** The interpreter asks the first call for more context: it lets go of x and has y next. */
  lemma FirstCallGoesOn(p: System, thread: DueThread)
    requires May(p, Answer("first", NeedsContext)) && p.scans["first"].phase.thread == thread
    ensures var q := After(p, Answer("first", NeedsContext));
      && q.store == p.store.(t := MarkInterpreted(p.store.t, thread.id, thread.eventSeq))
      && q.inFlight == p.inFlight - {thread.id}
      && q.scans == p.scans["first" := p.scans["first"].(phase := Idle)]
  {}

  /** What the dispatch of one more task has left of the rest. */
  predicate OneMore(t: Tables, u: Tables, taskId: string, ref: string, thread: string) {
    && u.channels == t.channels && thread in u.threads
    && taskId in u.tasks && u.tasks[taskId].threadId == Some(thread)
    && u.tasks == t.tasks[taskId := u.tasks[taskId]] && u.payloads.Keys == t.payloads.Keys + {ref}
  }

  /** A call fails on the threads before the `k`-th in its list, and dispatches that one. */
  lemma DispatchesLater(p: System, rid: string, k: nat, taskId: string, ref: string) returns (moves: seq<Move>)
    requires rid in p.scans && p.scans[rid].phase.Idle? && k < |p.scans[rid].due|
    requires p.scans[rid].channelId in p.store.t.channels && p.scans[rid].due[k].id in p.store.t.threads
    requires p.scans[rid].due[k].id !in p.inFlight && taskId !in p.store.t.tasks && ref !in p.store.t.payloads
    ensures Playable(p, moves)
    ensures var q := Play(p, moves);
      && q.inFlight == p.inFlight && (forall r <- p.scans :: r != rid ==> r in q.scans && q.scans[r] == p.scans[r])
      && OneMore(p.store.t, q.store.t, taskId, ref, p.scans[rid].due[k].id)
  {
    var a := FailuresSkip(p, rid, k);
    var q, thread := Play(p, a), p.scans[rid].due[k];
    var b := TurnIsARun(q, rid, Turn(Some(FastPass("l", "do it")), taskId, ref));
    DispatchEffect(q.store.t, p.scans[rid].channelId, thread, "l", "do it", taskId, ref, q.store.now);
    PlayOn(p, a, b);
    moves := a + b;
    forall r <- p.scans | r != rid ensures r in Play(p, moves).scans && Play(p, moves).scans[r] == p.scans[r] {
      assert r in p.scans - {rid};
    }
  }

  /** The second call has the `k`-th thread ahead, and no call is busy with it. */
  lemma SecondIsReady(p: System, channelId: string, debounceMs: nat, order: seq<string>, k: nat)
    returns (moves: seq<Move>)
    requires p.scans == map[] && p.inFlight == {}
    requires May(p, StartScan("first", channelId, debounceMs, order)) && 0 < k < |order|
    ensures Playable(p, moves) && order[k] in p.store.t.threads && order[k] != order[0]
    ensures var q, due := Play(p, moves), ReadRows(p.store.t, order);
      && q.store == p.store && q.inFlight == {order[0]} && "first" in q.scans && "second" in q.scans
      && q.scans["first"] == Scan(channelId, due[1..], Interpreting(due[0], ThreadEventsOf(p.store.t, order[0])))
      && q.scans["second"].phase.Idle? && q.scans["second"].channelId == channelId
      && k - 1 < |q.scans["second"].due| && q.scans["second"].due[k - 1].id == order[k]
  {
    moves := BothCallsHold(p, channelId, debounceMs, order);
    var due := ReadRows(p.store.t, order);
    assert due[1..][k - 1] == due[k];
  }

  /** The second call has dispatched the thread while the first awaits the interpreter. */
  lemma SecondCallDispatches(p: System, channelId: string, debounceMs: nat, order: seq<string>, k: nat,
                             taskId: string, ref: string)
    returns (moves: seq<Move>)
    requires p.scans == map[] && p.inFlight == {} && channelId in p.store.t.channels
    requires May(p, StartScan("first", channelId, debounceMs, order)) && 0 < k < |order|
    requires taskId !in p.store.t.tasks && ref !in p.store.t.payloads
    ensures Playable(p, moves)
    ensures var q, due := Play(p, moves), ReadRows(p.store.t, order);
      && q.inFlight == {order[0]} && "first" in q.scans
      && q.scans["first"] == Scan(channelId, due[1..], Interpreting(due[0], ThreadEventsOf(p.store.t, order[0])))
      && OneMore(p.store.t, q.store.t, taskId, ref, order[k])
  {
    var start := SecondIsReady(p, channelId, debounceMs, order, k);
    var turn := DispatchesLater(Play(p, start), "second", k - 1, taskId, ref);
    PlayOn(p, start, turn);
    moves := start + turn;
  }

  /** Then the first call is about to go through its old list. */
  lemma OneCallDispatches(p: System, channelId: string, debounceMs: nat, order: seq<string>, k: nat,
                          taskId: string, ref: string)
    returns (moves: seq<Move>)
    requires p.scans == map[] && p.inFlight == {} && channelId in p.store.t.channels
    requires May(p, StartScan("first", channelId, debounceMs, order)) && 0 < k < |order|
    requires taskId !in p.store.t.tasks && ref !in p.store.t.payloads
    ensures Playable(p, moves)
    ensures var q := Play(p, moves);
      && q.inFlight == {} && "first" in q.scans
      && q.scans["first"] == Scan(channelId, ReadRows(p.store.t, order)[1..], Idle)
      && OneMore(p.store.t, q.store.t, taskId, ref, order[k])
  {
    var before := SecondCallDispatches(p, channelId, debounceMs, order, k, taskId, ref);
    FirstCallGoesOn(Play(p, before), ReadRows(p.store.t, order)[0]);
    MarkOne(Play(p, before).store.t, order[0], ReadRows(p.store.t, order)[0].eventSeq);
    PlaySnoc(p, before, Answer("first", NeedsContext));
    moves := before + [Answer("first", NeedsContext)];
  }

  /**
    * Two overlapping runDue calls of a channel, and any due thread but the first: while the first
    * call awaits the interpreter on the first thread, the second skips that one and dispatches
    * ours; the first then comes to it with its old list, nothing stops it, and it gets a second task.
    */
  lemma OverlappingCallsDuplicate(p: System, channelId: string, debounceMs: nat, order: seq<string>, k: nat,
                                  task1: string, ref1: string, task2: string, ref2: string)
    returns (moves: seq<Move>)
    requires p.scans == map[] && p.inFlight == {} && channelId in p.store.t.channels
    requires May(p, StartScan("first", channelId, debounceMs, order)) && 0 < k < |order|
    requires task1 !in p.store.t.tasks && ref1 !in p.store.t.payloads && task2 != task1
    requires task2 !in p.store.t.tasks && ref2 !in p.store.t.payloads && ref2 != ref1
    ensures Playable(p, moves)
    ensures var t := Play(p, moves).store.t;
      && task1 in t.tasks && task2 in t.tasks && t.tasks[task1].threadId == t.tasks[task2].threadId == Some(order[k])
      && !AtMostOne(t)
  {
    var first := OneCallDispatches(p, channelId, debounceMs, order, k, task1, ref1);
    var q := Play(p, first);
    var again := DispatchesLater(q, "first", k - 1, task2, ref2);
    PlayOn(p, first, again);
    moves := first + again;
    assert Play(p, moves).store.t.tasks[task1] == q.store.t.tasks[task1];
  }

  // ----- Where a restart goes wrong -----

  /** An event joins the open thread after the restart. */
  lemma EventAfterRestart(p: System, id: string, payload: string) returns (moves: seq<Move>)
    requires ThreadsOk(p) && id in p.store.t.threads && p.store.t.threads[id].status == Open
    requires p.store.t.threads[id].channelId in p.store.t.channels
    ensures Playable(p, moves)
    ensures var t, q := p.store.t, Play(p, moves);
      && q.inFlight == {} && q.scans == map[]
      && q.store.t.tasks == t.tasks && q.store.t.payloads == t.payloads && q.store.t.channels == t.channels
      && id in q.store.t.threads && q.store.t.threads[id].status == Open
      && q.store.t.threads[id].channelId == t.threads[id].channelId
      && q.store.t.threads[id].interpretedSeq < q.store.t.threads[id].eventSeq
  {
    var row := p.store.t.threads[id];
    var event := Ingest(id, row.channelId, row.contextKey, payload, None);
    assert [] + [Restart] == [Restart];
    PlaySnoc(p, [], Restart);
    assert id in OpenThreads(p.store.t, row.channelId, row.contextKey);
    PlaySnoc(p, [Restart], event);
    moves := [Restart] + [event];
  }

  /**
    * A restart between creating a task and closing its thread, which is still open: the next
    * event of the context brings it before the interpreter again, and it gets a second task.
    */
  lemma CrashDuplicates(p: System, rid: string, payload: string, taskId: string, ref: string)
    returns (moves: seq<Move>)
    requires ThreadsOk(p) && DispatchOk(p) && May(p, CloseThread(rid))
    requires var id := p.scans[rid].phase.thread.id;
      && id in p.store.t.threads && p.store.t.threads[id].status == Open
      && p.store.t.threads[id].channelId in p.store.t.channels
    requires taskId !in p.store.t.tasks && ref !in p.store.t.payloads
    ensures Playable(p, moves) && !AtMostOne(Play(p, moves).store.t)
  {
    var id := p.scans[rid].phase.thread.id;
    var a := EventAfterRestart(p, id, payload);
    var b, scan, k := OpenGetsListed(Play(p, a), id);
    PlayOn(p, a, b);
    var c := DispatchesLater(Play(p, a + b), scan, k, taskId, ref);
    PlayOn(p, a + b, c);
    moves := a + b + c;
    assert IsClosing(p, id) && HasTask(p.store.t, id);
    OneMoreTask(p.store.t, Play(p, moves).store.t, taskId, id);
  }
}
