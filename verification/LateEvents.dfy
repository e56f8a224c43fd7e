/** Which events of a context thread are never interpreted. */
module LateEvents {
  import opened Wrappers
  import opened Schema
  import opened TaskRuns
  import opened ThreadStore
  import opened Pipeline
  import opened PipelineRuns
  import opened PipelineRefinement
  import opened ThreadFinality

  /** Some successful call of the interpreter had the thread's i-th event in its input. */
  ghost predicate Read(calls: seq<Call>, id: string, i: nat) {
    exists k :: 0 <= k < |calls| && calls[k].threadId == id && i < |calls[k].input|
  }

  /** A thread in the interpreter was given everything that any call has had of it. */
  ghost predicate InputsOk(p: System) {
    && (forall k :: 0 <= k < |p.calls| ==> p.calls[k].input <= ThreadEventsOf(p.store.t, p.calls[k].threadId))
    && (forall rid <- p.scans :: p.scans[rid].phase.Interpreting? ==>
          Longest(p.calls, p.scans[rid].phase.thread.id, p.scans[rid].phase.input))
  }

  ghost predicate Longest(calls: seq<Call>, id: string, input: seq<ThreadEvent>) {
    forall k :: 0 <= k < |calls| && calls[k].threadId == id ==> |calls[k].input| <= |input|
  }

  lemma EventsGrow(p: System, move: Move, id: string)
    requires May(p, move)
    ensures ThreadEventsOf(p.store.t, id) <= ThreadEventsOf(After(p, move).store.t, id)
  {
    match move
    case TaskMove(step) => TaskStepsFrame(p.store, step);
    case Answer(rid, verdict) => JudgeOne(p.store.t, p.scans[rid].phase.thread, verdict);
    case CreateTask(rid, taskId, ref) =>
      DispatchFrame(p.store.t, p.scans[rid].channelId, p.scans[rid].phase, taskId, ref, p.store.now);
    case CloseThread(rid) => CloseOne(p.store.t, p.scans[rid].phase.thread.id, Dispatched);
    case _ =>
  }

  /** What a call newly in the interpreter was given; the others keep what they were given. */
  lemma InputsFrame(p: System, move: Move, rid: string)
    requires May(p, move) && rid in After(p, move).scans && After(p, move).scans[rid].phase.Interpreting?
    ensures var phase := After(p, move).scans[rid].phase;
      if move.Begin? && rid == move.rid && p.scans[rid].phase.Idle? && p.scans[rid].due[0].id !in p.inFlight
      then phase.input == ThreadEventsOf(p.store.t, phase.thread.id) && After(p, move).calls == p.calls
      else rid in p.scans && phase == p.scans[rid].phase && !(move.Answer? && move.rid == rid)
  {}

  lemma MoveKeepsPrefixes(p: System, move: Move, k: nat)
    requires ThreadsOk(p) && InputsOk(p) && May(p, move) && k < |After(p, move).calls|
    ensures var q := After(p, move); q.calls[k].input <= ThreadEventsOf(q.store.t, q.calls[k].threadId)
  {
    var call := After(p, move).calls[k];
    CallWasPrefix(p, move, k);
    EventsGrow(p, move, call.threadId);
  }

  lemma CallWasPrefix(p: System, move: Move, k: nat)
    requires ThreadsOk(p) && InputsOk(p) && May(p, move) && k < |After(p, move).calls|
    ensures var call := After(p, move).calls[k]; call.input <= ThreadEventsOf(p.store.t, call.threadId)
  {
    CallsGrow(p, move);
    if move.Answer? && k == |p.calls| {
      assert PhaseOk(p.store.t, p.inFlight, p.scans[move.rid]);
    }
  }

  lemma MoveKeepsLongest(p: System, move: Move, rid: string)
    requires ThreadsOk(p) && InputsOk(p) && May(p, move)
    requires rid in After(p, move).scans && After(p, move).scans[rid].phase.Interpreting?
    ensures var q := After(p, move); Longest(q.calls, q.scans[rid].phase.thread.id, q.scans[rid].phase.input)
  {
    InputsFrame(p, move, rid);
    CallsGrow(p, move);
    if move.Answer? {
      OthersStayLongest(p, move.rid, rid);
    }
  }

  /** The call that is answered was about another thread. */
  lemma OthersStayLongest(p: System, answered: string, rid: string)
    requires ThreadsOk(p) && InputsOk(p) && answered in p.scans && rid in p.scans && rid != answered
    requires p.scans[answered].phase.Interpreting? && p.scans[rid].phase.Interpreting?
    ensures var done, phase := p.scans[answered].phase, p.scans[rid].phase;
      Longest(p.calls + [Call(done.thread.id, done.input)], phase.thread.id, phase.input)
  {
    assert Longest(p.calls, p.scans[rid].phase.thread.id, p.scans[rid].phase.input);
  }

  lemma MoveKeepsInputs(p: System, move: Move)
    requires ThreadsOk(p) && InputsOk(p) && May(p, move)
    ensures InputsOk(After(p, move))
  {
    var q := After(p, move);
    forall k | 0 <= k < |q.calls| ensures q.calls[k].input <= ThreadEventsOf(q.store.t, q.calls[k].threadId) {
      MoveKeepsPrefixes(p, move, k);
    }
    forall rid <- q.scans | q.scans[rid].phase.Interpreting?
      ensures Longest(q.calls, q.scans[rid].phase.thread.id, q.scans[rid].phase.input)
    {
      MoveKeepsLongest(p, move, rid);
    }
  }

  lemma {:induction false} RunsKeepInputs(p: System, moves: seq<Move>)
    requires PipelineRuns.Fresh(p) && Playable(p, moves)
    ensures InputsOk(Play(p, moves))
    decreases |moves|
  {
    if moves != [] {
      RunsKeepThreads(p, moves[..|moves| - 1]);
      RunsKeepInputs(p, moves[..|moves| - 1]);
      MoveKeepsInputs(Play(p, moves[..|moves| - 1]), moves[|moves| - 1]);
    }
  }

  lemma {:induction false} RunEventsGrow(p: System, moves: seq<Move>, id: string)
    requires Playable(p, moves)
    ensures |ThreadEventsOf(p.store.t, id)| <= |ThreadEventsOf(Play(p, moves).store.t, id)|
    decreases |moves|
  {
    if moves != [] {
      RunEventsGrow(p, moves[..|moves| - 1], id);
      EventsGrow(Play(p, moves[..|moves| - 1]), moves[|moves| - 1], id);
    }
  }

  // ----- Out of reach -----

  /** The call will not put the event into an input: the thread is not ahead, and was given without it. */
  predicate Passes(scan: Scan, id: string, i: nat) {
    && (forall j :: 0 <= j < |scan.due| ==> scan.due[j].id != id)
    && (scan.phase.Interpreting? && scan.phase.thread.id == id ==> |scan.phase.input| <= i)
  }

  /** The thread is closed, and no call has it ahead or was given the event with it. */
  ghost predicate OutOfReach(p: System, id: string, i: nat) {
    && id in p.store.t.threads && p.store.t.threads[id].status != Open
    && forall rid <- p.scans :: Passes(p.scans[rid], id, i)
  }

  lemma StaysClosed(p: System, move: Move, id: string)
    requires May(p, move) && id in p.store.t.threads && p.store.t.threads[id].status != Open
    ensures var u := After(p, move).store.t; id in u.threads && u.threads[id].status != Open
  {
    match move
    case TaskMove(step) => TaskStepsFrame(p.store, step);
    case Answer(rid, verdict) => JudgeOne(p.store.t, p.scans[rid].phase.thread, verdict);
    case CreateTask(rid, taskId, ref) =>
      DispatchFrame(p.store.t, p.scans[rid].channelId, p.scans[rid].phase, taskId, ref, p.store.now);
    case CloseThread(rid) => CloseOne(p.store.t, p.scans[rid].phase.thread.id, Dispatched);
    case _ =>
  }

  lemma StillPasses(p: System, move: Move, rid: string, id: string, i: nat)
    requires OutOfReach(p, id, i) && May(p, move) && rid in After(p, move).scans
    ensures Passes(After(p, move).scans[rid], id, i)
  {
    ScanMoves(p, move, rid);
    if move.StartScan? && rid == move.rid {
      assert id !in DueSet(p.store.t, move.channelId, move.debounceMs, p.store.now);
    } else {
      assert Passes(p.scans[rid], id, i);
      if After(p, move).scans[rid].phase.Interpreting? {
        InputsFrame(p, move, rid);
      }
    }
  }

  lemma {:induction false} NeverReached(p: System, moves: seq<Move>, id: string, i: nat)
    requires OutOfReach(p, id, i) && !Read(p.calls, id, i) && Playable(p, moves)
    ensures OutOfReach(Play(p, moves), id, i) && !Read(Play(p, moves).calls, id, i)
    decreases |moves|
  {
    if moves != [] {
      var before, move := moves[..|moves| - 1], moves[|moves| - 1];
      NeverReached(p, before, id, i);
      var q := Play(p, before);
      StaysClosed(q, move, id);
      forall rid <- After(q, move).scans ensures Passes(After(q, move).scans[rid], id, i) {
        StillPasses(q, move, rid, id, i);
      }
      CallsGrow(q, move);
      if move.Answer? {
        assert Passes(q.scans[move.rid], id, i);
      }
    }
  }

  // ----- Within reach: a continuation that reads it -----

  /** The interpreter answers: what it was given is read. */
  lemma AnswerReadsIt(p: System, rid: string, id: string, i: nat)
    requires May(p, Answer(rid, NeedsContext)) && p.scans[rid].phase.thread.id == id && i < |p.scans[rid].phase.input|
    ensures Read(After(p, Answer(rid, NeedsContext)).calls, id, i)
  {
    CallsGrow(p, Answer(rid, NeedsContext));
    assert After(p, Answer(rid, NeedsContext)).calls[|p.calls|].threadId == id;
  }

  /** A call that is free and has the thread ahead, which no call holds, comes to read all its events. */
  lemma FreeCallReads(p: System, rid: string, id: string, k: nat, i: nat) returns (moves: seq<Move>)
    requires rid in p.scans && p.scans[rid].phase.Idle? && id !in p.inFlight
    requires k < |p.scans[rid].due| && p.scans[rid].due[k].id == id && i < |ThreadEventsOf(p.store.t, id)|
    ensures Playable(p, moves) && Read(Play(p, moves).calls, id, i)
  {
    var a := FailuresSkip(p, rid, k);
    BeginAwaits(Play(p, a), rid);
    PlaySnoc(p, a, Begin(rid));
    a := a + [Begin(rid)];
    AnswerReadsIt(Play(p, a), rid, id, i);
    PlaySnoc(p, a, Answer(rid, NeedsContext));
    moves := a + [Answer(rid, NeedsContext)];
  }

  /** Whoever holds the thread lets go of it, and the calls that have it ahead still do. */
  ghost predicate CameFree(p: System, q: System, id: string) {
    && id !in q.inFlight && q.scans.Keys == p.scans.Keys
    && forall rid <- p.scans :: q.scans[rid].due == p.scans[rid].due && !Holds(q, rid, id)
  }

  lemma HolderLetsGo(p: System, rid: string, id: string) returns (moves: seq<Move>)
    requires ThreadsOk(p) && Holds(p, rid, id)
    ensures Playable(p, moves) && CameFree(p, Play(p, moves), id)
  {
    moves := CanLetGo(p, rid);
    OnlyHolder(p, Play(p, moves), rid, id);
  }

  lemma OnlyHolder(p: System, q: System, rid: string, id: string)
    requires ScansOk(p) && Holds(p, rid, id) && LetGo(p, q, rid)
    ensures CameFree(p, q, id)
  {}

  lemma ThreadComesFree(p: System, id: string) returns (moves: seq<Move>)
    requires ThreadsOk(p) && FlightsHeld(p)
    ensures Playable(p, moves) && CameFree(p, Play(p, moves), id)
  {
    if id in p.inFlight {
      var rid :| rid in p.scans && Holds(p, rid, id);
      moves := HolderLetsGo(p, rid, id);
    } else {
      moves := [];
      forall rid <- p.scans ensures !Holds(p, rid, id) {
        assert PhaseOk(p.store.t, p.inFlight, p.scans[rid]);
      }
    }
  }

  /** A thread ahead of a call gets all its events read. */
  lemma AheadGetsRead(p: System, rid: string, id: string, k: nat, i: nat) returns (moves: seq<Move>)
    requires ThreadsOk(p) && FlightsHeld(p) && rid in p.scans
    requires k < |p.scans[rid].due| && p.scans[rid].due[k].id == id && i < |ThreadEventsOf(p.store.t, id)|
    ensures Playable(p, moves) && Read(Play(p, moves).calls, id, i)
  {
    assert DueOk(p.store.t, p.scans[rid]) && ReadingOk(p.store.t, p.scans[rid].channelId, p.scans[rid].due[k]);
    var a := ThreadComesFree(p, id);
    RunsKeepThreads(p, a);
    var q := Play(p, a);
    assert DueOk(q.store.t, q.scans[rid]) && ReadingOk(q.store.t, q.scans[rid].channelId, q.scans[rid].due[k]);
    var b := CanComeFree(q, rid, id);
    PlayOn(p, a, b);
    RunEventsGrow(p, a + b, id);
    var c := FreeCallReads(Play(q, b), rid, id, k, i);
    PlayOn(p, a + b, c);
    moves := a + b + c;
  }

  /** An open thread with an unread event can always be brought before the interpreter. */
  lemma OpenGetsRead(p: System, id: string, i: nat) returns (moves: seq<Move>)
    requires ThreadsOk(p) && FlightsHeld(p) && id in p.store.t.threads && p.store.t.threads[id].status == Open
    requires i < |ThreadEventsOf(p.store.t, id)| && !Read(p.calls, id, i)
    ensures Playable(p, moves) && Read(Play(p, moves).calls, id, i)
  {
    assert WasRead(p.calls, id, p.store.t.threads[id].interpretedSeq, ThreadEventsOf(p.store.t, id));
    var a, rid, k := OpenGetsListed(p, id);
    RunsHoldFlights(p, a);
    var b := AheadGetsRead(Play(p, a), rid, id, k, i);
    PlayOn(p, a, b);
    moves := a + b;
  }

  lemma WithinReachIsRead(p: System, id: string, i: nat) returns (moves: seq<Move>)
    requires ThreadsOk(p) && FlightsHeld(p) && id in p.store.t.threads && !OutOfReach(p, id, i)
    requires i < |ThreadEventsOf(p.store.t, id)| && !Read(p.calls, id, i)
    ensures Playable(p, moves) && Read(Play(p, moves).calls, id, i)
  {
    if p.store.t.threads[id].status == Open {
      moves := OpenGetsRead(p, id, i);
    } else {
      var rid :| rid in p.scans && !Passes(p.scans[rid], id, i);
      if k :| 0 <= k < |p.scans[rid].due| && p.scans[rid].due[k].id == id {
        moves := AheadGetsRead(p, rid, id, k, i);
      } else {
        assert [] + [Answer(rid, NeedsContext)] == [Answer(rid, NeedsContext)];
        PlaySnoc(p, [], Answer(rid, NeedsContext));
        AnswerReadsIt(p, rid, id, i);
        moves := [Answer(rid, NeedsContext)];
      }
    }
  }

  /** Whatever happens afterwards, no call of the interpreter has the event in its input. */
  ghost predicate NeverRead(p: System, id: string, i: nat) {
    forall more :: Playable(p, more) ==> !Read(Play(p, more).calls, id, i)
  }

  lemma OutOfReachIsNeverRead(p: System, id: string, i: nat)
    requires OutOfReach(p, id, i) && !Read(p.calls, id, i)
    ensures NeverRead(p, id, i)
  {
    forall more | Playable(p, more) ensures !Read(Play(p, more).calls, id, i) {
      NeverReached(p, more, id, i);
    }
  }

  lemma ReadSomeTime(p: System, more: seq<Move>, id: string, i: nat)
    requires Playable(p, more) && Read(Play(p, more).calls, id, i)
    ensures !NeverRead(p, id, i)
  {}

  /**
    * In every state the pipeline reaches, a stored event that no call has read yet is never read,
    * whatever happens afterwards, exactly when it is out of reach.
    */
  lemma UnreadForever(p: System, moves: seq<Move>, id: string, i: nat)
    requires PipelineRuns.Fresh(p) && Playable(p, moves) && id in Play(p, moves).store.t.threads
    requires i < |ThreadEventsOf(Play(p, moves).store.t, id)| && !Read(Play(p, moves).calls, id, i)
    ensures NeverRead(Play(p, moves), id, i) <==> OutOfReach(Play(p, moves), id, i)
  {
    FreshRunsHoldFlights(p, moves);
    UnreadExactly(Play(p, moves), id, i);
  }

  lemma UnreadExactly(q: System, id: string, i: nat)
    requires ThreadsOk(q) && FlightsHeld(q) && id in q.store.t.threads
    requires i < |ThreadEventsOf(q.store.t, id)| && !Read(q.calls, id, i)
    ensures NeverRead(q, id, i) <==> OutOfReach(q, id, i)
  {
    if OutOfReach(q, id, i) {
      OutOfReachIsNeverRead(q, id, i);
    } else {
      var more := WithinReachIsRead(q, id, i);
      ReadSomeTime(q, more, id, i);
    }
  }

  // ----- The three ways a thread is closed -----

  /** No call has the thread ahead. */
  ghost predicate NotAhead(p: System, id: string) {
    forall rid <- p.scans, j :: 0 <= j < |p.scans[rid].due| ==> p.scans[rid].due[j].id != id
  }

  /**
    * Noise: an event that came after the interpreter was given its thread is unread when the
    * answer comes, and then lost for ever exactly when no other call has the thread ahead.
    */
  lemma NoiseLosesLateEvents(p: System, moves: seq<Move>, rid: string, i: nat)
    requires PipelineRuns.Fresh(p) && Playable(p, moves) && May(Play(p, moves), Answer(rid, Noise))
    requires var Interpreting(thread, input) := Play(p, moves).scans[rid].phase;
      |input| <= i < |ThreadEventsOf(Play(p, moves).store.t, thread.id)|
    ensures var q := Play(p, moves);
      var id, r := q.scans[rid].phase.thread.id, After(q, Answer(rid, Noise));
      !Read(r.calls, id, i) && (NeverRead(r, id, i) <==> NotAhead(q, id))
  {
    FreshRunsHoldFlights(p, moves);
    RunsKeepInputs(p, moves);
    NoiseLoses(Play(p, moves), rid, i);
  }

  lemma NoiseLoses(q: System, rid: string, i: nat)
    requires ThreadsOk(q) && FlightsHeld(q) && InputsOk(q) && May(q, Answer(rid, Noise))
    requires var Interpreting(thread, input) := q.scans[rid].phase;
      |input| <= i < |ThreadEventsOf(q.store.t, thread.id)|
    ensures var id, r := q.scans[rid].phase.thread.id, After(q, Answer(rid, Noise));
      !Read(r.calls, id, i) && (NeverRead(r, id, i) <==> NotAhead(q, id))
  {
    var thread, r := q.scans[rid].phase.thread, After(q, Answer(rid, Noise));
    OneMoveHolds(q, Answer(rid, Noise));
    EventsGrow(q, Answer(rid, Noise), thread.id);
    UnreadAfterAnswer(q, rid, Noise, i);
    NoiseReach(q, rid, i);
    UnreadExactly(r, thread.id, i);
  }

  lemma OneMoveHolds(q: System, move: Move)
    requires ThreadsOk(q) && FlightsHeld(q) && May(q, move)
    ensures ThreadsOk(After(q, move)) && FlightsHeld(After(q, move))
  {
    assert [] + [move] == [move];
    PlaySnoc(q, [], move);
    RunsHoldFlights(q, [move]);
  }

  lemma UnreadAfterAnswer(q: System, rid: string, verdict: InterpretVerdict, i: nat)
    requires InputsOk(q) && May(q, Answer(rid, verdict)) && |q.scans[rid].phase.input| <= i
    ensures !Read(After(q, Answer(rid, verdict)).calls, q.scans[rid].phase.thread.id, i)
  {
    CallsGrow(q, Answer(rid, verdict));
    assert Longest(q.calls, q.scans[rid].phase.thread.id, q.scans[rid].phase.input);
  }

  lemma NoiseReach(q: System, rid: string, i: nat)
    requires ThreadsOk(q) && May(q, Answer(rid, Noise))
    ensures var id, r := q.scans[rid].phase.thread.id, After(q, Answer(rid, Noise));
      id in r.store.t.threads && (OutOfReach(r, id, i) <==> NotAhead(q, id))
  {
    var id, r := q.scans[rid].phase.thread.id, After(q, Answer(rid, Noise));
    assert PhaseOk(q.store.t, q.inFlight, q.scans[rid]);
    JudgeOne(q.store.t, q.scans[rid].phase.thread, Noise);
    OwnMoveReach(q, r, rid, id, i);
  }

  /** The call that held the thread has let go of it: reach depends on the lists alone. */
  lemma OwnMoveReach(q: System, r: System, rid: string, id: string, i: nat)
    requires ScansOk(q) && Holds(q, rid, id) && r.scans == q.scans[rid := q.scans[rid].(phase := Idle)]
    requires id in r.store.t.threads && r.store.t.threads[id].status != Open
    ensures OutOfReach(r, id, i) <==> NotAhead(q, id)
  {
    forall other <- r.scans ensures r.scans[other].due == q.scans[other].due && !Holds(r, other, id) {}
    if NotAhead(q, id) {
      forall other <- r.scans ensures Passes(r.scans[other], id, i) {
        assert forall j :: 0 <= j < |r.scans[other].due| ==> q.scans[other].due[j].id != id;
      }
    } else {
      var other, j :| other in q.scans && 0 <= j < |q.scans[other].due| && q.scans[other].due[j].id == id;
      assert !Passes(r.scans[other], id, i);
    }
  }

  /** Dispatch: an event still unread when the thread is closed is lost exactly when no call has the thread ahead. */
  lemma DispatchLosesUnreadEvents(p: System, moves: seq<Move>, rid: string, i: nat)
    requires PipelineRuns.Fresh(p) && Playable(p, moves) && May(Play(p, moves), CloseThread(rid))
    requires var id := Play(p, moves).scans[rid].phase.thread.id;
      i < |ThreadEventsOf(Play(p, moves).store.t, id)| && !Read(Play(p, moves).calls, id, i)
    ensures var q := Play(p, moves);
      var id := q.scans[rid].phase.thread.id;
      NeverRead(After(q, CloseThread(rid)), id, i) <==> NotAhead(q, id)
  {
    FreshRunsHoldFlights(p, moves);
    var q := Play(p, moves);
    var id, r := q.scans[rid].phase.thread.id, After(q, CloseThread(rid));
    OneMoveHolds(q, CloseThread(rid));
    EventsGrow(q, CloseThread(rid), id);
    CloseLetsGo(q, rid);
    assert PhaseOk(q.store.t, q.inFlight, q.scans[rid]);
    OwnMoveReach(q, r, rid, id, i);
    UnreadExactly(r, id, i);
  }

  /**
    * Expiry: an unread event of a thread that expires is lost exactly when no call has the thread
    * ahead, or was given it with that event.
    */
  lemma ExpiryLosesUnreadEvents(p: System, moves: seq<Move>, channelId: string, ttlSeconds: nat, id: string, i: nat)
    requires PipelineRuns.Fresh(p) && Playable(p, moves)
    requires id in Stale(Play(p, moves).store.t, channelId, ttlSeconds, Play(p, moves).store.now)
    requires i < |ThreadEventsOf(Play(p, moves).store.t, id)| && !Read(Play(p, moves).calls, id, i)
    ensures var q := Play(p, moves);
      NeverRead(After(q, Expire(channelId, ttlSeconds)), id, i) <==>
      NotAhead(q, id) && forall rid <- q.scans :: Holds(q, rid, id) && q.scans[rid].phase.Interpreting? ==>
                           |q.scans[rid].phase.input| <= i
  {
    FreshRunsHoldFlights(p, moves);
    var q, expire := Play(p, moves), Expire(channelId, ttlSeconds);
    OneMoveHolds(q, expire);
    EventsGrow(q, expire, id);
    ExpiryReach(q, After(q, expire), id, i);
    UnreadExactly(After(q, expire), id, i);
  }

  lemma ExpiryReach(q: System, r: System, id: string, i: nat)
    requires r.scans == q.scans && id in r.store.t.threads && r.store.t.threads[id].status != Open
    ensures OutOfReach(r, id, i) <==>
      NotAhead(q, id) && forall rid <- q.scans :: Holds(q, rid, id) && q.scans[rid].phase.Interpreting? ==>
                           |q.scans[rid].phase.input| <= i
  {
    if OutOfReach(r, id, i) {
      forall rid <- q.scans ensures Passes(q.scans[rid], id, i) {}
    }
  }

  /**
    * So from every fresh system and in every channel an event can be lost: it joins a thread whose
    * first event the interpreter has, and the answer is noise.
    */
  lemma FreshEventLost(p: System, channelId: string, id: string, first: string, second: string)
    returns (moves: seq<Move>)
    requires PipelineRuns.Fresh(p) && channelId in p.store.t.channels
    ensures Playable(p, moves) && NeverRead(Play(p, moves), id, 1)
    ensures ThreadEventsOf(Play(p, moves).store.t, id)
         == [ThreadEvent(first, p.store.now), ThreadEvent(second, p.store.now)]
  {
    moves := SecondEventJoins(p, channelId, id, first, second);
    var r := Play(p, moves);
    NoiseLosesLateEvents(p, moves, "scan", 1);
    JudgeOne(r.store.t, r.scans["scan"].phase.thread, Noise);
    PlaySnoc(p, moves, Answer("scan", Noise));
    moves := moves + [Answer("scan", Noise)];
  }

  /** While the interpreter has the first event of a thread, a second one joins it. */
  lemma SecondEventJoins(p: System, channelId: string, id: string, first: string, second: string)
    returns (moves: seq<Move>)
    requires PipelineRuns.Fresh(p) && channelId in p.store.t.channels
    ensures Playable(p, moves)
    ensures var r := Play(p, moves);
      && r.scans == map["scan" := Scan(channelId, [], Interpreting(DueThread(id, 1, None),
                                                                   [ThreadEvent(first, p.store.now)]))]
      && r.calls == [] && id in r.store.t.threads
      && ThreadEventsOf(r.store.t, id) == [ThreadEvent(first, p.store.now), ThreadEvent(second, p.store.now)]
  {
    moves := FirstEventInterpreted(p, channelId, id, "key", first, 0);
    var q, ingest := Play(p, moves), Ingest(id, channelId, "key", second, None);
    assert OpenThreads(q.store.t, channelId, "key") == {id};
    PlaySnoc(p, moves, ingest);
    moves := moves + [ingest];
    assert ThreadEventsOf(Play(p, moves).store.t, id)
        == [ThreadEvent(first, p.store.now)] + [ThreadEvent(second, p.store.now)];
  }
}
