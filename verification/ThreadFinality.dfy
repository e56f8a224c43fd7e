/** When a closed context thread is final, and what becomes of events nobody has read by then. */
module ThreadFinality {
  import opened Wrappers
  import opened Schema
  import opened TaskRuns
  import opened ThreadStore
  import opened Pipeline
  import opened PipelineRuns
  import opened PipelineRefinement

  // ----- Closed and out of reach -----

  /** The call can no longer change a closed thread: not ahead, and at most being dispatched once more. */
  predicate DoneWith(t: Tables, scan: Scan, id: string) {
    && (forall i :: 0 <= i < |scan.due| ==> scan.due[i].id != id)
    && (!scan.phase.Idle? && scan.phase.thread.id == id ==>
          !scan.phase.Interpreting? && id in t.threads && t.threads[id].status == Dispatched)
  }

  ghost predicate Settled(p: System, id: string) {
    && id in p.store.t.threads && p.store.t.threads[id].status != Open
    && forall rid <- p.scans :: DoneWith(p.store.t, p.scans[rid], id)
  }

  /** Row and events of a thread are the same in both. */
  predicate SameThread(t: Tables, u: Tables, id: string) {
    && id in t.threads && id in u.threads && u.threads[id] == t.threads[id]
    && ThreadEventsOf(u, id) == ThreadEventsOf(t, id)
  }

  lemma AppendElsewhere(t: Tables, id: string, channelId: string, contextKey: string, payload: string,
                        agent: Option<string>, now: int, other: string)
    requires Target(t, id, channelId, contextKey) && other in t.threads && t.threads[other].status != Open
    ensures SameThread(t, Append(t, id, channelId, contextKey, payload, agent, now), other)
  {}

  lemma JudgeElsewhere(t: Tables, thread: DueThread, verdict: InterpretVerdict, other: string)
    requires other in t.threads && other != thread.id
    ensures SameThread(t, Judge(t, thread, verdict).0, other)
  {
    JudgeOne(t, thread, verdict);
  }

  lemma ClosedRowStays(p: System, move: Move, id: string)
    requires Settled(p, id) && May(p, move)
    ensures SameThread(p.store.t, After(p, move).store.t, id)
  {
    match move
    case Ingest(target, channelId, contextKey, payload, agent) =>
      AppendElsewhere(p.store.t, target, channelId, contextKey, payload, agent, p.store.now, id);
    case Answer(rid, verdict) =>
      assert DoneWith(p.store.t, p.scans[rid], id);
      JudgeElsewhere(p.store.t, p.scans[rid].phase.thread, verdict, id);
    case CloseThread(rid) =>
      assert DoneWith(p.store.t, p.scans[rid], id);
      CloseOne(p.store.t, p.scans[rid].phase.thread.id, Dispatched);
    case TaskMove(step) => TaskStepsFrame(p.store, step);
    case CreateTask(rid, taskId, ref) =>
      DispatchFrame(p.store.t, p.scans[rid].channelId, p.scans[rid].phase, taskId, ref, p.store.now);
    case _ =>
  }

  /** What a move makes of a call's list and phase. */
  lemma ScanMoves(p: System, move: Move, rid: string)
    requires May(p, move) && rid in After(p, move).scans
    ensures var scan := After(p, move).scans[rid];
      if move.StartScan? && rid == move.rid
      then scan == Scan(move.channelId, ReadRows(p.store.t, move.order), Idle)
      else
        && rid in p.scans
        && var was := p.scans[rid];
           && (forall i :: 0 <= i < |scan.due| ==> scan.due[i] in was.due)
           && (!scan.phase.Idle? ==>
                 if was.phase.Idle? then was.due != [] && scan.phase.thread == was.due[0]
                 else scan.phase.thread == was.phase.thread && (scan.phase.Interpreting? ==> was.phase.Interpreting?))
  {}

  lemma StaysDoneWith(p: System, move: Move, id: string, rid: string)
    requires Settled(p, id) && May(p, move) && rid in After(p, move).scans
    ensures DoneWith(After(p, move).store.t, After(p, move).scans[rid], id)
  {
    ClosedRowStays(p, move, id);
    ScanMoves(p, move, rid);
    if move.StartScan? && rid == move.rid {
      assert id !in DueSet(p.store.t, move.channelId, move.debounceMs, p.store.now);
    } else {
      assert DoneWith(p.store.t, p.scans[rid], id);
    }
  }

  /** Calls are only added, and a call that is added was in the interpreter. */
  lemma CallsGrow(p: System, move: Move)
    requires May(p, move)
    ensures var q := After(p, move);
      if move.Answer?
      then q.calls == p.calls + [Call(p.scans[move.rid].phase.thread.id, p.scans[move.rid].phase.input)]
      else q.calls == p.calls
  {}

  /**
    * A closed thread that every call is done with is final: it is never reopened, gets no further
    * event, and is in no further call of the interpreter.
    */
  lemma {:induction false} SettledForever(p: System, moves: seq<Move>, id: string)
    requires Settled(p, id) && Playable(p, moves)
    ensures var q := Play(p, moves);
      && Settled(q, id) && SameThread(p.store.t, q.store.t, id)
      && p.calls <= q.calls && forall k :: |p.calls| <= k < |q.calls| ==> q.calls[k].threadId != id
    decreases |moves|
  {
    if moves != [] {
      var before, move := moves[..|moves| - 1], moves[|moves| - 1];
      SettledForever(p, before, id);
      var q := Play(p, before);
      ClosedRowStays(q, move, id);
      forall rid <- After(q, move).scans ensures DoneWith(After(q, move).store.t, After(q, move).scans[rid], id) {
        StaysDoneWith(q, move, id, rid);
      }
      CallsGrow(q, move);
      if move.Answer? {
        assert DoneWith(q.store.t, q.scans[move.rid], id);
      }
    }
  }

  // ----- Not out of reach: a continuation that changes it -----

  /** Every thread marked as in flight is in the hands of some call. */
  ghost predicate FlightsHeld(p: System) {
    forall x <- p.inFlight :: exists rid <- p.scans :: !p.scans[rid].phase.Idle? && p.scans[rid].phase.thread.id == x
  }

  predicate Holds(p: System, rid: string, id: string) {
    rid in p.scans && !p.scans[rid].phase.Idle? && p.scans[rid].phase.thread.id == id
  }

  lemma FlightsAfter(p: System, move: Move, x: string)
    requires ThreadsOk(p) && FlightsHeld(p) && May(p, move) && x in After(p, move).inFlight
    ensures exists rid <- After(p, move).scans :: Holds(After(p, move), rid, x)
  {
    var q := After(p, move);
    if x in p.inFlight {
      var rid :| rid in p.scans && Holds(p, rid, x);
      HolderStays(p, move, rid, x);
    } else {
      assert move.Begin? && Holds(q, move.rid, x);
    }
  }

  /** A call that goes on with its thread keeps it; one that is done takes it out of flight. */
  lemma OwnMoveHolds(p: System, move: Move, rid: string, x: string)
    requires May(p, move) && Holds(p, rid, x) && x in After(p, move).inFlight
    requires move.Answer? || move.CreateTask? || move.CloseThread? || move.Fail?
    requires move.rid == rid
    ensures Holds(After(p, move), rid, x)
  {}

  /** The call that holds a thread in flight holds it as long as it is in flight. */
  lemma HolderStays(p: System, move: Move, rid: string, x: string)
    requires May(p, move) && Holds(p, rid, x) && x in After(p, move).inFlight
    ensures Holds(After(p, move), rid, x)
  {
    if (move.Answer? || move.CreateTask? || move.CloseThread? || move.Fail?) && move.rid == rid {
      OwnMoveHolds(p, move, rid, x);
    }
  }

  lemma {:induction false} RunsHoldFlights(p: System, moves: seq<Move>)
    requires ThreadsOk(p) && FlightsHeld(p) && Playable(p, moves)
    ensures ThreadsOk(Play(p, moves)) && FlightsHeld(Play(p, moves))
    decreases |moves|
  {
    RunsKeepThreads(p, moves);
    if moves != [] {
      var before, move := moves[..|moves| - 1], moves[|moves| - 1];
      RunsHoldFlights(p, before);
      forall x <- Play(p, moves).inFlight
        ensures exists rid <- Play(p, moves).scans :: Holds(Play(p, moves), rid, x)
      {
        FlightsAfter(Play(p, before), move, x);
      }
    }
  }

  lemma FreshRunsHoldFlights(p: System, moves: seq<Move>)
    requires PipelineRuns.Fresh(p) && Playable(p, moves)
    ensures ThreadsOk(Play(p, moves)) && FlightsHeld(Play(p, moves))
  {
    FreshIsOk(p);
    RunsHoldFlights(p, moves);
  }

  lemma FreshIsOk(p: System)
    requires PipelineRuns.Fresh(p)
    ensures ThreadsOk(p) && FlightsHeld(p)
  {}

  /** The call has let go of its thread, and of nothing else. */
  ghost predicate LetGo(p: System, q: System, rid: string)
    requires rid in p.scans && !p.scans[rid].phase.Idle?
  {
    && q.scans == p.scans[rid := p.scans[rid].(phase := Idle)]
    && q.inFlight == p.inFlight - {p.scans[rid].phase.thread.id}
    && forall x <- p.store.t.threads :: x != p.scans[rid].phase.thread.id ==> SameThread(p.store.t, q.store.t, x)
  }

  /** The thread as it was, but dispatched. */
  predicate DispatchedFrom(t: Tables, u: Tables, id: string) {
    && id in t.threads && id in u.threads && u.threads[id] == t.threads[id].(status := Dispatched)
    && ThreadEventsOf(u, id) == ThreadEventsOf(t, id)
  }

  lemma CloseLetsGo(p: System, rid: string)
    requires ThreadsOk(p) && May(p, CloseThread(rid))
    ensures LetGo(p, After(p, CloseThread(rid)), rid)
    ensures DispatchedFrom(p.store.t, After(p, CloseThread(rid)).store.t, p.scans[rid].phase.thread.id)
  {
    assert PhaseOk(p.store.t, p.inFlight, p.scans[rid]);
    CloseOne(p.store.t, p.scans[rid].phase.thread.id, Dispatched);
  }

  /** The channel is there again and the UUIDs are new, so the task is created. */
  lemma TaskCanBeMade(p: System, rid: string) returns (moves: seq<Move>)
    requires rid in p.scans && p.scans[rid].phase.Dispatching?
    ensures Playable(p, moves)
    ensures var q := Play(p, moves);
      && q.store.t.threads == p.store.t.threads && q.store.t.threadEvents == p.store.t.threadEvents
      && q.inFlight == p.inFlight
      && q.scans == p.scans[rid := p.scans[rid].(phase := Closing(p.scans[rid].phase.thread))]
  {
    var taskId := FreshString(p.store.t.tasks.Keys);
    var ref := FreshString(p.store.t.payloads.Keys);
    var channels := p.store.t.channels[p.scans[rid].channelId := DEMO_CHANNEL];
    assert [] + [Reconfigure(channels)] == [Reconfigure(channels)];
    ReconfigureOnly(p, channels);
    PlaySnoc(p, [], Reconfigure(channels));
    moves := [Reconfigure(channels)];
    TaskGetsMade(Play(p, moves), rid, taskId, ref);
    PlaySnoc(p, moves, CreateTask(rid, taskId, ref));
    moves := moves + [CreateTask(rid, taskId, ref)];
  }

  lemma ReconfigureOnly(p: System, channels: map<string, ChannelRow>)
    requires p.store.t.channels.Keys <= channels.Keys
    ensures May(p, Reconfigure(channels))
    ensures var q := After(p, Reconfigure(channels));
      q == p.(store := q.store) && q.store == p.store.(t := q.store.t)
      && q.store.t == p.store.t.(channels := channels)
  {}

  /** A call about to dispatch can always go through with it. */
  lemma DispatchGoesThrough(p: System, rid: string) returns (moves: seq<Move>)
    requires ThreadsOk(p) && rid in p.scans && p.scans[rid].phase.Dispatching?
    ensures Playable(p, moves) && LetGo(p, Play(p, moves), rid)
    ensures DispatchedFrom(p.store.t, Play(p, moves).store.t, p.scans[rid].phase.thread.id)
  {
    moves := TaskCanBeMade(p, rid);
    var q := Play(p, moves);
    RunsKeepThreads(p, moves);
    CloseLetsGo(q, rid);
    PlaySnoc(p, moves, CloseThread(rid));
    moves := moves + [CloseThread(rid)];
    LetGoOnce(p, q, Play(p, moves), rid);
  }

  lemma LetGoOnce(p: System, q: System, r: System, rid: string)
    requires rid in p.scans && !p.scans[rid].phase.Idle? && p.scans[rid].phase.thread.id in p.store.t.threads
    requires q.store.t.threads == p.store.t.threads && q.store.t.threadEvents == p.store.t.threadEvents
    requires q.inFlight == p.inFlight
    requires q.scans == p.scans[rid := p.scans[rid].(phase := Closing(p.scans[rid].phase.thread))]
    requires LetGo(q, r, rid) && DispatchedFrom(q.store.t, r.store.t, p.scans[rid].phase.thread.id)
    ensures LetGo(p, r, rid) && DispatchedFrom(p.store.t, r.store.t, p.scans[rid].phase.thread.id)
  {
    assert r.scans == p.scans[rid := p.scans[rid].(phase := Idle)];
    forall x <- p.store.t.threads | x != p.scans[rid].phase.thread.id ensures SameThread(p.store.t, r.store.t, x) {
      assert SameThread(q.store.t, r.store.t, x);
    }
  }

  lemma TaskGetsMade(p: System, rid: string, taskId: string, ref: string)
    requires May(p, CreateTask(rid, taskId, ref)) && p.scans[rid].channelId in p.store.t.channels
    requires taskId !in p.store.t.tasks && ref !in p.store.t.payloads
    ensures var q := After(p, CreateTask(rid, taskId, ref));
      && q.store.t.threads == p.store.t.threads && q.store.t.threadEvents == p.store.t.threadEvents
      && q.inFlight == p.inFlight
      && q.scans == p.scans[rid := p.scans[rid].(phase := Closing(p.scans[rid].phase.thread))]
      && taskId in q.store.t.tasks && q.store.t.tasks[taskId].threadId == Some(p.scans[rid].phase.thread.id)
  {}

  /** A call busy with a thread can be brought to let go of it. */
  lemma CanLetGo(p: System, rid: string) returns (moves: seq<Move>)
    requires ThreadsOk(p) && rid in p.scans && !p.scans[rid].phase.Idle?
    ensures Playable(p, moves) && LetGo(p, Play(p, moves), rid)
    ensures !p.scans[rid].phase.Interpreting? ==>
      DispatchedFrom(p.store.t, Play(p, moves).store.t, p.scans[rid].phase.thread.id)
  {
    if p.scans[rid].phase.Dispatching? {
      moves := DispatchGoesThrough(p, rid);
    } else {
      var last := if p.scans[rid].phase.Closing? then CloseThread(rid) else Fail(rid);
      if p.scans[rid].phase.Closing? {
        CloseLetsGo(p, rid);
      }
      assert [] + [last] == [last];
      PlaySnoc(p, [], last);
      moves := [last];
    }
  }

  /** A verdict changes the closed thread the interpreter has: to discarded, or, if it is that, to dispatched. */
  lemma VerdictChanges(p: System, rid: string, id: string) returns (moves: seq<Move>)
    requires ThreadsOk(p) && Holds(p, rid, id) && p.scans[rid].phase.Interpreting?
    ensures Playable(p, moves) && !SameThread(p.store.t, Play(p, moves).store.t, id)
  {
    assert PhaseOk(p.store.t, p.inFlight, p.scans[rid]);
    if p.store.t.threads[id].status != Discarded {
      JudgeOne(p.store.t, p.scans[rid].phase.thread, Noise);
      assert [] + [Answer(rid, Noise)] == [Answer(rid, Noise)];
      PlaySnoc(p, [], Answer(rid, Noise));
      moves := [Answer(rid, Noise)];
    } else {
      moves := PassGoesThrough(p, rid);
    }
  }

  /** A passing answer and the dispatch that follows: the thread is dispatched in the end. */
  lemma PassGoesThrough(p: System, rid: string) returns (moves: seq<Move>)
    requires ThreadsOk(p) && rid in p.scans && p.scans[rid].phase.Interpreting?
    ensures Playable(p, moves)
    ensures var id, u := p.scans[rid].phase.thread.id, Play(p, moves).store.t;
      id in u.threads && u.threads[id].status == Dispatched
  {
    var answer := Answer(rid, FastPass("l", "do it"));
    assert [] + [answer] == [answer];
    PlaySnoc(p, [], answer);
    PassAnswered(p, rid, "l", "do it");
    RunsKeepThreads(p, [answer]);
    var rest := DispatchGoesThrough(Play(p, [answer]), rid);
    PlayOn(p, [answer], rest);
    moves := [answer] + rest;
  }

  /** A call with the thread ahead, which no call holds, comes to it and changes it. */
  lemma AheadChanges(p: System, rid: string, id: string, k: nat) returns (moves: seq<Move>)
    requires ThreadsOk(p) && rid in p.scans && p.scans[rid].phase.Idle? && id !in p.inFlight
    requires k < |p.scans[rid].due| && p.scans[rid].due[k].id == id
    ensures Playable(p, moves) && !SameThread(p.store.t, Play(p, moves).store.t, id)
  {
    assert DueOk(p.store.t, p.scans[rid]) && ReadingOk(p.store.t, p.scans[rid].channelId, p.scans[rid].due[k]);
    var a := FailuresSkip(p, rid, k);
    var q := Play(p, a);
    PlaySnoc(p, a, Begin(rid));
    a := a + [Begin(rid)];
    RunsKeepThreads(p, a);
    var b := VerdictChanges(Play(p, a), rid, id);
    PlayOn(p, a, b);
    moves := a + b;
  }

  // ----- Final exactly when settled -----

  /** Somebody holds the closed thread, and nothing it does there can change it: let it finish. */
  lemma IdleDispatchEnds(p: System, id: string) returns (moves: seq<Move>)
    requires ThreadsOk(p) && FlightsHeld(p) && id in p.inFlight && id in p.store.t.threads
    requires p.store.t.threads[id].status == Dispatched
    requires forall rid <- p.scans :: Holds(p, rid, id) ==> !p.scans[rid].phase.Interpreting?
    ensures Playable(p, moves)
    ensures var q := Play(p, moves);
      && SameThread(p.store.t, q.store.t, id) && id !in q.inFlight && q.scans.Keys == p.scans.Keys
      && forall rid <- p.scans :: !Holds(p, rid, id) ==> q.scans[rid] == p.scans[rid]
  {
    var rid :| rid in p.scans && Holds(p, rid, id);
    moves := CanLetGo(p, rid);
  }

  /** The call gets to the point where it takes its next thread. */
  lemma CanComeFree(p: System, rid: string, id: string) returns (moves: seq<Move>)
    requires ThreadsOk(p) && rid in p.scans && !Holds(p, rid, id) && id in p.store.t.threads
    ensures Playable(p, moves)
    ensures var q := Play(p, moves);
      && SameThread(p.store.t, q.store.t, id) && q.inFlight <= p.inFlight
      && rid in q.scans && q.scans[rid] == p.scans[rid].(phase := Idle)
  {
    if p.scans[rid].phase.Idle? {
      moves := [];
    } else {
      moves := CanLetGo(p, rid);
    }
  }

  /** A thread that is ahead of a call, and not in the hands of one that still changes it, gets changed. */
  lemma AheadOfCallChanges(p: System, rid: string, id: string, k: nat) returns (moves: seq<Move>)
    requires ThreadsOk(p) && FlightsHeld(p) && rid in p.scans && id in p.store.t.threads
    requires k < |p.scans[rid].due| && p.scans[rid].due[k].id == id
    requires forall other <- p.scans :: Holds(p, other, id) ==>
               !p.scans[other].phase.Interpreting? && p.store.t.threads[id].status == Dispatched
    ensures Playable(p, moves) && !SameThread(p.store.t, Play(p, moves).store.t, id)
  {
    assert PhaseOk(p.store.t, p.inFlight, p.scans[rid]);
    moves := [];
    if id in p.inFlight {
      assert exists other <- p.scans :: Holds(p, other, id);
      moves := IdleDispatchEnds(p, id);
    }
    RunsKeepThreads(p, moves);
    var q := Play(p, moves);
    var b := CanComeFree(q, rid, id);
    PlayOn(p, moves, b);
    RunsKeepThreads(q, b);
    var c := AheadChanges(Play(q, b), rid, id, k);
    PlayOn(p, moves + b, c);
    moves := moves + b + c;
  }

  lemma UnsettledChanges(p: System, id: string) returns (moves: seq<Move>)
    requires ThreadsOk(p) && FlightsHeld(p) && id in p.store.t.threads
    requires p.store.t.threads[id].status != Open && !Settled(p, id)
    ensures Playable(p, moves) && !SameThread(p.store.t, Play(p, moves).store.t, id)
  {
    if rid :| rid in p.scans && Holds(p, rid, id) && p.scans[rid].phase.Interpreting? {
      moves := VerdictChanges(p, rid, id);
    } else if rid :| rid in p.scans && Holds(p, rid, id) && p.store.t.threads[id].status != Dispatched {
      moves := CanLetGo(p, rid);
    } else {
      var rid :| rid in p.scans && !DoneWith(p.store.t, p.scans[rid], id);
      var k :| 0 <= k < |p.scans[rid].due| && p.scans[rid].due[k].id == id;
      moves := AheadOfCallChanges(p, rid, id, k);
    }
  }

  /**
    * In every state the pipeline reaches, a closed thread is final, whatever happens afterwards,
    * exactly when every call is done with it.
    */
  lemma ClosedThreadIsFinal(p: System, moves: seq<Move>, id: string)
    requires PipelineRuns.Fresh(p) && Playable(p, moves)
    requires id in Play(p, moves).store.t.threads && Play(p, moves).store.t.threads[id].status != Open
    ensures var q := Play(p, moves);
      Settled(q, id) <==> forall more :: Playable(q, more) ==> SameThread(q.store.t, Play(q, more).store.t, id)
  {
    FreshRunsHoldFlights(p, moves);
    var q := Play(p, moves);
    if Settled(q, id) {
      forall more | Playable(q, more) ensures SameThread(q.store.t, Play(q, more).store.t, id) {
        SettledForever(q, more, id);
      }
    } else {
      var more := UnsettledChanges(q, id);
    }
  }

  // ----- A thread that expires in the interpreter's hands -----

  /** From the passing answer to the end of the dispatch: the thread becomes dispatched from whatever status it has. */
  lemma PassDispatches(p: System, rid: string, labelName: string, instruction: string, taskId: string, ref: string)
    returns (moves: seq<Move>)
    requires ThreadsOk(p) && May(p, Answer(rid, FastPass(labelName, instruction)))
    requires p.scans[rid].channelId in p.store.t.channels
    requires taskId !in p.store.t.tasks && ref !in p.store.t.payloads
    ensures moves == [Answer(rid, FastPass(labelName, instruction))] + [CreateTask(rid, taskId, ref)]
                     + [CloseThread(rid)]
    ensures Playable(p, moves)
    ensures var t, u, thread := p.store.t, Play(p, moves).store.t, p.scans[rid].phase.thread;
      && thread.id in t.threads && thread.id in u.threads
      && u.threads[thread.id] == t.threads[thread.id].(interpretedSeq := thread.eventSeq, status := Dispatched)
      && taskId in u.tasks && u.tasks[taskId].threadId == Some(thread.id)
  {
    var answer, create := Answer(rid, FastPass(labelName, instruction)), CreateTask(rid, taskId, ref);
    assert [] + [answer] == [answer];
    PlaySnoc(p, [], answer);
    PassAnswered(p, rid, labelName, instruction);
    var q := Play(p, [answer]);
    PlaySnoc(p, [answer], create);
    TaskGetsMade(q, rid, taskId, ref);
    moves := [answer] + [create];
    RunsKeepThreads(p, moves);
    CloseLetsGo(Play(p, moves), rid);
    CloseOne(Play(p, moves).store.t, p.scans[rid].phase.thread.id, Dispatched);
    PlaySnoc(p, moves, CloseThread(rid));
    moves := moves + [CloseThread(rid)];
  }

  lemma PassAnswered(p: System, rid: string, labelName: string, instruction: string)
    requires ThreadsOk(p) && May(p, Answer(rid, FastPass(labelName, instruction)))
    ensures var thread, q := p.scans[rid].phase.thread, After(p, Answer(rid, FastPass(labelName, instruction)));
      && q.store.t == MarkInterpreted(p.store.t, thread.id, thread.eventSeq)
      && thread.id in p.store.t.threads && q.store.t.threads.Keys == p.store.t.threads.Keys
      && q.store.t.threads[thread.id] == p.store.t.threads[thread.id].(interpretedSeq := thread.eventSeq)
      && q.scans == p.scans[rid := p.scans[rid].(phase := Dispatching(thread, labelName, instruction))]
  {
    assert PhaseOk(p.store.t, p.inFlight, p.scans[rid]);
    MarkOne(p.store.t, p.scans[rid].phase.thread.id, p.scans[rid].phase.thread.eventSeq);
  }

  /**
    * While the interpreter has a thread its time to live can pass. When a sweep then expires it and
    * the answer is to dispatch, it goes from open to expired to dispatched, with a task.
    */
  lemma ExpiredThreadDispatched(p: System, rid: string, ttlSeconds: nat, labelName: string, instruction: string,
                                taskId: string, ref: string)
    returns (moves: seq<Move>)
    requires ThreadsOk(p) && May(p, Answer(rid, FastPass(labelName, instruction)))
    requires p.scans[rid].channelId in p.store.t.channels
    requires p.scans[rid].phase.thread.id in Stale(p.store.t, p.scans[rid].channelId, ttlSeconds, p.store.now)
    requires taskId !in p.store.t.tasks && ref !in p.store.t.payloads
    ensures var expire := Expire(p.scans[rid].channelId, ttlSeconds);
      && moves == [expire] + ([Answer(rid, FastPass(labelName, instruction))] + [CreateTask(rid, taskId, ref)]
                              + [CloseThread(rid)])
      && Playable(p, [expire]) && Playable(p, moves)
      && var t, mid, u := p.store.t, Play(p, [expire]).store.t, Play(p, moves).store.t;
         var id := p.scans[rid].phase.thread.id;
         && id in t.threads && id in mid.threads && id in u.threads
         && t.threads[id].status == Open && mid.threads[id].status == Expired && u.threads[id].status == Dispatched
         && taskId in u.tasks && u.tasks[taskId].threadId == Some(id)
  {
    var expire := Expire(p.scans[rid].channelId, ttlSeconds);
    assert [] + [expire] == [expire];
    PlaySnoc(p, [], expire);
    RunsKeepThreads(p, [expire]);
    var rest := PassDispatches(Play(p, [expire]), rid, labelName, instruction, taskId, ref);
    PlayOn(p, [expire], rest);
    moves := [expire] + rest;
  }

  // ----- Runs from the start -----

  /** The system with one thread more, of one event. */
  function WithThread(p: System, channelId: string, id: string, contextKey: string, payload: string): System {
    var row := ThreadRow(channelId, contextKey, Open, None, 1, 0, p.store.now);
    WithTables(p, p.store.t.(threads := map[id := row],
                             threadEvents := map[id := [ThreadEvent(payload, p.store.now)]]))
  }

  /** The same with the thread in the interpreter, and time having passed. */
  function InInterpreter(p: System, channelId: string, id: string, contextKey: string, payload: string, ms: nat)
    : System
  {
    var q := WithThread(p, channelId, id, contextKey, payload);
    var given := Interpreting(DueThread(id, 1, None), [ThreadEvent(payload, p.store.now)]);
    q.(store := q.store.(now := q.store.now + ms), inFlight := {id},
       scans := map["scan" := Scan(channelId, [], given)])
  }

  lemma FirstIngest(p: System, channelId: string, id: string, contextKey: string, payload: string)
    requires PipelineRuns.Fresh(p) && channelId in p.store.t.channels
    ensures May(p, Ingest(id, channelId, contextKey, payload, None))
    ensures After(p, Ingest(id, channelId, contextKey, payload, None))
         == WithThread(p, channelId, id, contextKey, payload)
  {
    assert [] + [ThreadEvent(payload, p.store.now)] == [ThreadEvent(payload, p.store.now)];
  }

  /** A call lists the only thread and hands it to the interpreter. */
  lemma FirstGiven(p: System, channelId: string, id: string) returns (moves: seq<Move>)
    requires p.scans == map[] && p.inFlight == {} && p.store.t.threads.Keys == {id}
    requires var row := p.store.t.threads[id];
      && row.channelId == channelId && row.status == Open
      && row.lastEventAt <= p.store.now && row.interpretedSeq < row.eventSeq
    ensures Playable(p, moves)
    ensures Play(p, moves) == p.(inFlight := {id}, scans := map["scan" := Scan(channelId, [], Interpreting(
      DueThread(id, p.store.t.threads[id].eventSeq, p.store.t.threads[id].agent), ThreadEventsOf(p.store.t, id)))])
  {
    var start, due := StartScan("scan", channelId, 0, [id]), ReadRows(p.store.t, [id]);
    assert DueSet(p.store.t, channelId, 0, p.store.now) == {id};
    assert [] + [start] == [start];
    PlaySnoc(p, [], start);
    PlaySnoc(p, [start], Begin("scan"));
    moves := [start] + [Begin("scan")];
    assert due == [DueThread(id, p.store.t.threads[id].eventSeq, p.store.t.threads[id].agent)] && due[1..] == [];
    assert Play(p, [start]) == p.(scans := map["scan" := Scan(channelId, due, Idle)]);
    assert {} + {id} == {id};
  }

  lemma FirstEventInterpreted(p: System, channelId: string, id: string, contextKey: string, payload: string, ms: nat)
    returns (moves: seq<Move>)
    requires PipelineRuns.Fresh(p) && channelId in p.store.t.channels
    ensures Playable(p, moves) && Play(p, moves) == InInterpreter(p, channelId, id, contextKey, payload, ms)
  {
    var ingest := Ingest(id, channelId, contextKey, payload, None);
    assert [] + [ingest] == [ingest];
    FirstIngest(p, channelId, id, contextKey, payload);
    PlaySnoc(p, [], ingest);
    var given := FirstGiven(Play(p, [ingest]), channelId, id);
    PlayOn(p, [ingest], given);
    TimePasses(Play(p, [ingest] + given), ms);
    PlaySnoc(p, [ingest] + given, TaskMove(TickStep(ms)));
    moves := [ingest] + given + [TaskMove(TickStep(ms))];
  }

  /** So from every fresh system and in every channel a thread can expire and still be dispatched. */
  lemma FreshThreadExpiresAndDispatches(p: System, channelId: string, id: string, ttlSeconds: nat,
                                        taskId: string, ref: string)
    returns (before: seq<Move>, rest: seq<Move>)
    requires PipelineRuns.Fresh(p) && channelId in p.store.t.channels && ref !in p.store.t.payloads
    ensures Playable(p, before) && Playable(Play(p, before), [Expire(channelId, ttlSeconds)])
    ensures Playable(Play(p, before), rest) && [Expire(channelId, ttlSeconds)] <= rest
    ensures var q := Play(p, before);
      var mid, u := Play(q, [Expire(channelId, ttlSeconds)]).store.t, Play(q, rest).store.t;
      && id in mid.threads && mid.threads[id].status == Expired
      && id in u.threads && u.threads[id].status == Dispatched
      && taskId in u.tasks && u.tasks[taskId].threadId == Some(id)
  {
    before := FirstEventInterpreted(p, channelId, id, "key", "event", 1000 * ttlSeconds + 1);
    RunsKeepThreads(p, before);
    rest := ExpiredThreadDispatched(Play(p, before), "scan", ttlSeconds, "label", "do it", taskId, ref);
  }
}
