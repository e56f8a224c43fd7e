/** Purging a channel in a database that ingestion, interpretation and workers have filled. */
module PipelinePurge {
  import opened Wrappers
  import opened Schema
  import opened TaskRuns
  import opened Pipeline
  import opened PipelineRuns
  import opened PipelineDispatch
  import opened ChannelPurge

  // ----- Every move of the pipeline keeps that -----

  /** Only threads and their events have changed, in known channels. */
  lemma ThreadsKeepWhole(t: Tables, u: Tables)
    requires Whole(t) && u == t.(threads := u.threads, threadEvents := u.threadEvents)
    requires u.threadEvents.Keys <= u.threads.Keys
    requires forall id <- u.threads :: u.threads[id].channelId in u.channels
    ensures Whole(u)
  {
    assert AuditOk(u) && PayloadsOk(u);
  }

  lemma IngestKeepsWhole(p: System, move: Move)
    requires Whole(p.store.t) && May(p, move) && move.Ingest?
    ensures Whole(After(p, move).store.t)
  {
    ThreadsKeepWhole(p.store.t, After(p, move).store.t);
  }

  lemma ExpireKeepsWhole(p: System, move: Move)
    requires Whole(p.store.t) && May(p, move) && move.Expire?
    ensures Whole(After(p, move).store.t)
  {
    ThreadsKeepWhole(p.store.t, After(p, move).store.t);
  }

  lemma AnswerKeepsWhole(p: System, move: Move)
    requires Whole(p.store.t) && May(p, move) && move.Answer?
    ensures Whole(After(p, move).store.t)
  {
    JudgeOne(p.store.t, p.scans[move.rid].phase.thread, move.verdict);
    AnswerFrame(p, move);
    ThreadsKeepWhole(p.store.t, After(p, move).store.t);
  }

  lemma CloseKeepsWhole(p: System, move: Move)
    requires Whole(p.store.t) && May(p, move) && move.CloseThread?
    ensures Whole(After(p, move).store.t)
  {
    CloseOne(p.store.t, p.scans[move.rid].phase.thread.id, Dispatched);
    ThreadsKeepWhole(p.store.t, After(p, move).store.t);
  }

  lemma DispatchKeepsWhole(t: Tables, channelId: string, phase: Phase, taskId: string, ref: string, now: int)
    requires Whole(t) && phase.Dispatching?
    ensures Whole(Dispatch(t, channelId, phase, taskId, ref, now).tables)
  {
    CreateKeeps(t, taskId, ref, channelId, phase.labelName, phase.instruction, phase.thread.agent,
                Some(phase.thread.id), now);
    CreateKeepsForeignKeys(t, taskId, ref, channelId, phase.labelName, phase.instruction, phase.thread.agent,
                           Some(phase.thread.id), now);
  }

  lemma ReconfigureKeepsWhole(p: System, move: Move)
    requires Whole(p.store.t) && May(p, move) && move.Reconfigure?
    ensures Whole(After(p, move).store.t)
  {
    var t, u := p.store.t, After(p, move).store.t;
    assert AuditOk(u) && PayloadsOk(u);
    forall id <- u.tasks ensures u.tasks[id].channelId in u.channels {
      assert Referenced(t, t.tasks[id].channelId);
    }
    forall id <- u.threads ensures u.threads[id].channelId in u.channels {
      assert Referenced(t, t.threads[id].channelId);
    }
  }

  lemma MoveKeepsWhole(p: System, move: Move)
    requires Whole(p.store.t) && May(p, move)
    ensures Whole(After(p, move).store.t)
  {
    match move
    case Ingest(_, _, _, _, _) => IngestKeepsWhole(p, move);
    case Expire(_, _) => ExpireKeepsWhole(p, move);
    case Answer(_, _) => AnswerKeepsWhole(p, move);
    case CreateTask(rid, taskId, ref) =>
      DispatchKeepsWhole(p.store.t, p.scans[rid].channelId, p.scans[rid].phase, taskId, ref, p.store.now);
    case CloseThread(_) => CloseKeepsWhole(p, move);
    case TaskMove(step) =>
      StepKeepsConsistent(p.store, step);
      StepsKeepForeignKeys(p.store, step);
    case Reconfigure(_) => ReconfigureKeepsWhole(p, move);
    case _ =>
  }

  lemma {:induction false} RunsKeepWhole(p: System, moves: seq<Move>)
    requires Whole(p.store.t) && Playable(p, moves)
    ensures Whole(Play(p, moves).store.t)
    decreases |moves|
  {
    if moves != [] {
      RunsKeepWhole(p, moves[..|moves| - 1]);
      MoveKeepsWhole(Play(p, moves[..|moves| - 1]), moves[|moves| - 1]);
    }
  }

  /**
    * After any interleaving of ingestion, expiry, runDue calls, reconfiguration, restarts and
    * task steps the statements of a purge run through, and leave the tables whole.
    */
  lemma PipelinePurgeRuns(p: System, moves: seq<Move>, channelId: string, refs: seq<string>)
    requires Whole(p.store.t) && Playable(p, moves)
    requires SetOf(refs) == PayloadRefsOf(Play(p, moves).store.t, channelId)
    ensures var t := Play(p, moves).store.t;
      && Whole(t) && Execute(t, PurgePlan(channelId, refs)) == Some(Purged(t, channelId))
      && Whole(Purged(t, channelId))
  {
    RunsKeepWhole(p, moves);
    WholePurgeRuns(Play(p, moves).store.t, channelId, refs);
  }

  // ----- What a purge leaves of the pipeline -----

  function PurgedSystem(p: System, channelId: string): System {
    WithTables(p, Purged(p.store.t, channelId))
  }

  lemma PurgeKeepsCounters(t: Tables, channelId: string)
    requires CountersOk(t)
    ensures CountersOk(Purged(t, channelId))
  {
    var u := Purged(t, channelId);
    assert Counted(u);
    assert OneOpen(u);
  }

  /** Scans of other channels only hold threads of theirs. */
  lemma PurgeKeepsScan(p: System, channelId: string, rid: string)
    requires ThreadsOk(p) && rid in p.scans && p.scans[rid].channelId != channelId
    ensures var u := Purged(p.store.t, channelId);
      DueOk(u, p.scans[rid]) && PhaseOk(u, p.inFlight, p.scans[rid])
  {
    assert DueOk(p.store.t, p.scans[rid]) && PhaseOk(p.store.t, p.inFlight, p.scans[rid]);
  }

  lemma PurgeKeepsThreads(p: System, channelId: string)
    requires ThreadsOk(p) && NoScanOf(p, channelId)
    ensures ThreadsOk(PurgedSystem(p, channelId))
  {
    var q := PurgedSystem(p, channelId);
    PurgeKeepsCounters(p.store.t, channelId);
    forall rid <- q.scans ensures DueOk(q.store.t, q.scans[rid]) && PhaseOk(q.store.t, q.inFlight, q.scans[rid]) {
      PurgeKeepsScan(p, channelId, rid);
    }
    assert ScansOk(q);
    forall id <- q.store.t.threads
      ensures WasRead(q.calls, id, q.store.t.threads[id].interpretedSeq, ThreadEventsOf(q.store.t, id))
    {
      assert ThreadEventsOf(q.store.t, id) == ThreadEventsOf(p.store.t, id);
    }
  }

  lemma PurgeKeepsTraced(t: Tables, channelId: string)
    requires Traced(t)
    ensures Traced(Purged(t, channelId))
  {
    var u := Purged(t, channelId);
    forall id <- u.tasks | u.tasks[id].threadId.Some? ensures Origin(u, id, u.tasks[id].threadId.value) {
      assert Origin(t, id, t.tasks[id].threadId.value);
    }
  }

  /** A thread of another channel has its task of that channel, which the purge leaves. */
  lemma PurgeKeepsHasTask(t: Tables, channelId: string, thread: string)
    requires Traced(t) && thread in Purged(t, channelId).threads
    ensures HasTask(Purged(t, channelId), thread) == HasTask(t, thread)
  {
    if HasTask(t, thread) {
      var id :| id in t.tasks && t.tasks[id].threadId == Some(thread);
      assert Origin(t, id, thread);
      assert id in Purged(t, channelId).tasks;
    }
  }

  /**
    * A purge of a channel that no call is scanning keeps all that the runs rely on, so the
    * guarantee of one task per thread starts anew from there.
    */
  lemma PurgeKeepsSound(p: System, channelId: string)
    requires Sound(p) && NoScanOf(p, channelId)
    ensures Sound(PurgedSystem(p, channelId))
  {
    var t, q := p.store.t, PurgedSystem(p, channelId);
    PurgeKeepsThreads(p, channelId);
    PurgeKeepsTraced(t, channelId);
    SameClosings(p, q);
    forall x <- q.store.t.threads
      ensures HasTask(q.store.t, x) <==> IsDispatched(q.store.t, x) || IsClosing(q, x)
    {
      PurgeKeepsHasTask(t, channelId, x);
    }
  }

  /** After any run, overlapping calls included, a purge leaves no task that names a missing thread. */
  lemma PurgeLeavesOriginsWhole(p: System, moves: seq<Move>, channelId: string)
    requires ThreadsOk(p) && Traced(p.store.t) && Playable(p, moves)
    ensures ThreadsResolve(Purged(Play(p, moves).store.t, channelId))
  {
    RunsAreTraced(p, moves);
    var t := Play(p, moves).store.t;
    forall id <- t.tasks | t.tasks[id].threadId.Some? ensures Origin(t, id, t.tasks[id].threadId.value) {}
    PurgeLeavesThreadsResolved(t, channelId);
  }
}
