/** Interleavings of ingestion, expiry, runDue calls and task steps. */
module PipelineRuns {
  import opened Wrappers
  import opened Schema
  import opened TaskRuns
  import opened ThreadStore
  import opened Pipeline

  /** A successful call of the interpreter. */
  datatype Call = Call(threadId: string, input: seq<ThreadEvent>)

  datatype System = System(store: State, inFlight: set<string>, scans: map<string, Scan>, calls: seq<Call>)

  datatype Move =
    | Ingest(id: string, channelId: string, contextKey: string, payload: string, agent: Option<string>)
    | Expire(channelId: string, ttlSeconds: nat)
    | StartScan(rid: string, channelId: string, debounceMs: nat, order: seq<string>)
    | Begin(rid: string)
    | Fail(rid: string)
    | Answer(rid: string, verdict: InterpretVerdict)
    | CreateTask(rid: string, taskId: string, ref: string)
    | CloseThread(rid: string)
    | EndScan(rid: string)
    | TaskMove(step: Step)
    | Reconfigure(channels: map<string, ChannelRow>)
    | Restart

  /** A task or a thread names the channel: then its row cannot be deleted alone. */
  predicate Referenced(t: Tables, channelId: string) {
    || (exists id <- t.tasks :: t.tasks[id].channelId == channelId)
    || (exists id <- t.threads :: t.threads[id].channelId == channelId)
  }

  /** Scans and expiries take their times from the channel cache, which may hold anything. */
  ghost predicate May(p: System, move: Move) {
    var t := p.store.t;
    match move
    case Ingest(id, channelId, contextKey, _, _) => channelId in t.channels && Target(t, id, channelId, contextKey)
    case Expire(_, _) => true
    case StartScan(rid, channelId, debounceMs, order) =>
      && rid !in p.scans && Ordered(t, order)
      && Enumerates(order, DueSet(t, channelId, debounceMs, p.store.now))
    case Begin(rid) => rid in p.scans && p.scans[rid].phase.Idle? && p.scans[rid].due != []
    case Fail(rid) => rid in p.scans && p.scans[rid].phase.Interpreting?
    case Answer(rid, _) => rid in p.scans && p.scans[rid].phase.Interpreting?
    case CreateTask(rid, _, _) => rid in p.scans && p.scans[rid].phase.Dispatching?
    case CloseThread(rid) => rid in p.scans && p.scans[rid].phase.Closing?
    case EndScan(rid) => rid in p.scans && p.scans[rid].phase.Idle? && p.scans[rid].due == []
    case TaskMove(step) => Enabled(p.store, step) && (step.CreateStep? ==> step.threadId.None?)
    case Reconfigure(channels) => forall id <- t.channels :: Referenced(t, id) ==> id in channels
    case Restart => true
  }

  function WithTables(p: System, t: Tables): System {
    p.(store := p.store.(t := t))
  }

  /** The scan goes on to its next thread. */
  function Released(p: System, rid: string): System
    requires rid in p.scans && !p.scans[rid].phase.Idle?
  {
    p.(inFlight := p.inFlight - {p.scans[rid].phase.thread.id},
       scans := p.scans[rid := p.scans[rid].(phase := Idle)])
  }

  ghost function After(p: System, move: Move): System
    requires May(p, move)
  {
    var t := p.store.t;
    match move
    case Ingest(id, channelId, contextKey, payload, agent) =>
      WithTables(p, Append(t, id, channelId, contextKey, payload, agent, p.store.now))
    case Expire(channelId, ttlSeconds) =>
      WithTables(p, CloseAll(t, Stale(t, channelId, ttlSeconds, p.store.now), Expired))
    case StartScan(rid, channelId, _, order) =>
      p.(scans := p.scans[rid := Scan(channelId, ReadRows(t, order), Idle)])
    case Begin(rid) =>
      var (inFlight, scan) := BeginNext(t, p.inFlight, p.scans[rid]);
      p.(inFlight := inFlight, scans := p.scans[rid := scan])
    case Fail(rid) => Released(p, rid)
    case Answer(rid, verdict) =>
      var Interpreting(thread, input) := p.scans[rid].phase;
      var (judged, phase) := Judge(t, thread, verdict);
      var q := WithTables(p, judged).(calls := p.calls + [Call(thread.id, input)]);
      if phase.Idle? then Released(q, rid) else q.(scans := q.scans[rid := q.scans[rid].(phase := phase)])
    case CreateTask(rid, taskId, ref) =>
      var scan := p.scans[rid];
      var created := Dispatch(t, scan.channelId, scan.phase, taskId, ref, p.store.now);
      if created.result.Ok?
      then WithTables(p, created.tables).(scans := p.scans[rid := scan.(phase := Closing(scan.phase.thread))])
      else WithTables(p, created.tables).(inFlight := p.inFlight - {scan.phase.thread.id}, scans := p.scans - {rid})
    case CloseThread(rid) =>
      Released(WithTables(p, Close(t, p.scans[rid].phase.thread.id, Dispatched)), rid)
    case EndScan(rid) => p.(scans := p.scans - {rid})
    case TaskMove(step) => p.(store := Apply(p.store, step))
    case Reconfigure(channels) => WithTables(p, t.(channels := channels))
    case Restart => p.(inFlight := {}, scans := map[])
  }

  ghost predicate Playable(p: System, moves: seq<Move>)
    decreases |moves|, 0
  {
    moves == [] ||
    (Playable(p, moves[..|moves| - 1]) && May(Play(p, moves[..|moves| - 1]), moves[|moves| - 1]))
  }

  ghost function Play(p: System, moves: seq<Move>): System
    requires Playable(p, moves)
    decreases |moves|, 1
  {
    if moves == [] then p else After(Play(p, moves[..|moves| - 1]), moves[|moves| - 1])
  }

  ghost predicate Fresh(p: System) {
    && p.store.t.threads == map[] && p.store.t.threadEvents == map[] && p.store.t.tasks == map[]
    && p.inFlight == {} && p.scans == map[] && p.calls == []
  }

  lemma PlaySnoc(p: System, moves: seq<Move>, move: Move)
    requires Playable(p, moves) && May(Play(p, moves), move)
    ensures Playable(p, moves + [move]) && Play(p, moves + [move]) == After(Play(p, moves), move)
  {
    assert (moves + [move])[..|moves|] == moves;
  }

  lemma PlayLast(p: System, moves: seq<Move>)
    requires Playable(p, moves) && moves != []
    ensures Playable(p, moves[..|moves| - 1]) && May(Play(p, moves[..|moves| - 1]), moves[|moves| - 1])
    ensures Play(p, moves) == After(Play(p, moves[..|moves| - 1]), moves[|moves| - 1])
  {}

  lemma PlayOnOne(p: System, a: seq<Move>, b: seq<Move>, ab: seq<Move>)
    requires Playable(p, a) && Playable(Play(p, a), b) && b != []
    requires ab == a + b[..|b| - 1] && Playable(p, ab) && Play(p, ab) == Play(Play(p, a), b[..|b| - 1])
    ensures Playable(p, a + b) && Play(p, a + b) == Play(Play(p, a), b)
  {
    SnocJoin(a, b);
    PlayLast(Play(p, a), b);
    PlaySnoc(p, ab, b[|b| - 1]);
  }

  lemma {:induction false} PlayOn(p: System, a: seq<Move>, b: seq<Move>)
    requires Playable(p, a) && Playable(Play(p, a), b)
    ensures Playable(p, a + b) && Play(p, a + b) == Play(Play(p, a), b)
    decreases |b|
  {
    if b == [] {
      assert a + b == a;
    } else {
      PlayLast(Play(p, a), b);
      PlayOn(p, a, b[..|b| - 1]);
      PlayOnOne(p, a, b, a + b[..|b| - 1]);
    }
  }

  // ----- Threads: what holds under any interleaving -----

  /** Counters count stored events. */
  ghost predicate Counted(t: Tables) {
    && t.threadEvents.Keys == t.threads.Keys
    && forall id <- t.threads :: t.threads[id].interpretedSeq <= t.threads[id].eventSeq == |t.threadEvents[id]|
  }

  /** Both open, on one channel and key. */
  predicate BothOpen(a: ThreadRow, b: ThreadRow) {
    a.status == Open && b.status == Open && a.channelId == b.channelId && a.contextKey == b.contextKey
  }

  /** A channel and key have one open thread. */
  ghost predicate OneOpen(t: Tables) {
    forall a, b :: a in t.threads && b in t.threads && BothOpen(t.threads[a], t.threads[b]) ==> a == b
  }

  ghost predicate CountersOk(t: Tables) {
    Counted(t) && OneOpen(t)
  }

  /** What a scan read about a thread is still a lower bound. */
  predicate ReadingOk(t: Tables, channelId: string, thread: DueThread) {
    && thread.id in t.threads
    && t.threads[thread.id].channelId == channelId && t.threads[thread.id].agent == thread.agent
    && thread.eventSeq <= t.threads[thread.id].eventSeq
  }

  predicate DueOk(t: Tables, scan: Scan) {
    && (forall i :: 0 <= i < |scan.due| ==> ReadingOk(t, scan.channelId, scan.due[i]))
    && (forall i, j :: 0 <= i < j < |scan.due| ==> scan.due[i].id != scan.due[j].id)
  }

  predicate PhaseOk(t: Tables, inFlight: set<string>, scan: Scan) {
    scan.phase.Idle? ||
    (&& ReadingOk(t, scan.channelId, scan.phase.thread)
     && scan.phase.thread.id in inFlight
     && (forall i :: 0 <= i < |scan.due| ==> scan.due[i].id != scan.phase.thread.id)
     && (scan.phase.Interpreting? ==>
           && scan.phase.input <= ThreadEventsOf(t, scan.phase.thread.id)
           && scan.phase.thread.eventSeq <= |scan.phase.input|))
  }

  ghost predicate ScansOk(p: System) {
    && (forall rid <- p.scans :: DueOk(p.store.t, p.scans[rid]) && PhaseOk(p.store.t, p.inFlight, p.scans[rid]))
    && (forall a, b :: a in p.scans && b in p.scans && a != b && !p.scans[a].phase.Idle? && !p.scans[b].phase.Idle?
          ==> p.scans[a].phase.thread.id != p.scans[b].phase.thread.id)
  }

  /** The first `n` events of a thread were all in the input of one successful interpretation. */
  ghost predicate WasRead(calls: seq<Call>, id: string, n: nat, events: seq<ThreadEvent>) {
    n == 0 ||
    exists k :: 0 <= k < |calls| && calls[k].threadId == id && n <= |calls[k].input| && calls[k].input <= events
  }

  ghost predicate ReadsOk(p: System) {
    forall id <- p.store.t.threads ::
      WasRead(p.calls, id, p.store.t.threads[id].interpretedSeq, ThreadEventsOf(p.store.t, id))
  }

  ghost predicate ThreadsOk(p: System) {
    CountersOk(p.store.t) && ScansOk(p) && ReadsOk(p)
  }

  /** A move on the tables that only adds events and keeps who a thread is. */
  predicate Grows(t: Tables, u: Tables) {
    && (forall id <- t.threads ::
          && id in u.threads
          && u.threads[id].channelId == t.threads[id].channelId && u.threads[id].agent == t.threads[id].agent
          && t.threads[id].eventSeq <= u.threads[id].eventSeq
          && ThreadEventsOf(t, id) <= ThreadEventsOf(u, id))
  }

  lemma ScansGrow(p: System, u: Tables)
    requires ScansOk(p) && Grows(p.store.t, u)
    ensures ScansOk(WithTables(p, u))
  {
    forall rid <- p.scans
      ensures DueOk(u, p.scans[rid]) && PhaseOk(u, p.inFlight, p.scans[rid])
    {
      assert DueOk(p.store.t, p.scans[rid]) && PhaseOk(p.store.t, p.inFlight, p.scans[rid]);
    }
  }

  lemma ReadsGrow(p: System, u: Tables)
    requires ReadsOk(p) && Grows(p.store.t, u)
    requires forall id <- u.threads :: u.threads[id].interpretedSeq ==
               if id in p.store.t.threads then p.store.t.threads[id].interpretedSeq else 0
    ensures ReadsOk(WithTables(p, u))
  {
    forall id <- u.threads
      ensures WasRead(p.calls, id, u.threads[id].interpretedSeq, ThreadEventsOf(u, id))
    {
      if id in p.store.t.threads {
        assert WasRead(p.calls, id, p.store.t.threads[id].interpretedSeq, ThreadEventsOf(p.store.t, id));
      }
    }
  }

  lemma AppendCounts(t: Tables, id: string, channelId: string, contextKey: string, payload: string,
                     agent: Option<string>, now: int)
    requires Counted(t) && Target(t, id, channelId, contextKey)
    ensures var u := Append(t, id, channelId, contextKey, payload, agent, now);
      && Counted(u) && Grows(t, u)
      && forall x <- u.threads ::
           u.threads[x].interpretedSeq == if x in t.threads then t.threads[x].interpretedSeq else 0
  {
    AppendFrame(t, id, channelId, contextKey, payload, agent, now);
  }

  /** An append is about one thread: a new one, or the open one of its key. */
  lemma AppendFrame(t: Tables, id: string, channelId: string, contextKey: string, payload: string,
                    agent: Option<string>, now: int)
    requires Target(t, id, channelId, contextKey)
    ensures var u := Append(t, id, channelId, contextKey, payload, agent, now);
      && u == t.(threads := u.threads, threadEvents := u.threadEvents)
      && u.threads == t.threads[id :=
           if id in t.threads then t.threads[id].(eventSeq := t.threads[id].eventSeq + 1, lastEventAt := now)
           else ThreadRow(channelId, contextKey, Open, agent, 1, 0, now)]
      && u.threadEvents == t.threadEvents[id := ThreadEventsOf(t, id) + [ThreadEvent(payload, now)]]
      && (id in t.threads ==>
            && t.threads[id].status == Open && t.threads[id].channelId == channelId
            && t.threads[id].contextKey == contextKey)
  {}

  /** A new thread is opened only when its key has no open one. */
  lemma AppendOneOpen(t: Tables, id: string, channelId: string, contextKey: string, payload: string,
                      agent: Option<string>, now: int)
    requires OneOpen(t) && Target(t, id, channelId, contextKey)
    ensures OneOpen(Append(t, id, channelId, contextKey, payload, agent, now))
  {
    AppendFrame(t, id, channelId, contextKey, payload, agent, now);
    if id !in t.threads {
      NewIsAlone(t, id, channelId, contextKey);
    }
  }

  lemma NewIsAlone(t: Tables, id: string, channelId: string, contextKey: string)
    requires Target(t, id, channelId, contextKey) && id !in t.threads
    ensures forall x <- t.threads ::
      !(t.threads[x].status == Open && t.threads[x].channelId == channelId && t.threads[x].contextKey == contextKey)
  {
    forall x <- t.threads
      ensures !(t.threads[x].status == Open && t.threads[x].channelId == channelId
                && t.threads[x].contextKey == contextKey)
    {
      assert x !in OpenThreads(t, channelId, contextKey);
    }
  }

  lemma AppendGrows(t: Tables, id: string, channelId: string, contextKey: string, payload: string,
                    agent: Option<string>, now: int)
    requires CountersOk(t) && Target(t, id, channelId, contextKey)
    ensures var u := Append(t, id, channelId, contextKey, payload, agent, now);
      && CountersOk(u) && Grows(t, u)
      && forall x <- u.threads ::
           u.threads[x].interpretedSeq == if x in t.threads then t.threads[x].interpretedSeq else 0
  {
    AppendCounts(t, id, channelId, contextKey, payload, agent, now);
    AppendOneOpen(t, id, channelId, contextKey, payload, agent, now);
  }

  lemma ClosingGrows(t: Tables, ids: set<string>, status: ThreadStatus)
    requires CountersOk(t) && status != Open
    ensures var u := CloseAll(t, ids, status);
      && CountersOk(u) && Grows(t, u)
      && forall x <- u.threads :: u.threads[x].interpretedSeq == t.threads[x].interpretedSeq
  {
    var u := CloseAll(t, ids, status);
    assert Counted(u);
    ClosingOneOpen(t, u);
  }

  lemma ClosingOneOpen(t: Tables, u: Tables)
    requires OneOpen(t) && u.threads.Keys == t.threads.Keys
    requires forall x <- u.threads :: u.threads[x].status == Open ==> BothOpen(u.threads[x], t.threads[x])
    ensures OneOpen(u)
  {
    forall a, b | a in u.threads && b in u.threads && BothOpen(u.threads[a], u.threads[b]) ensures a == b {
      assert BothOpen(t.threads[a], t.threads[b]);
    }
  }

  lemma CloseIsCloseAll(t: Tables, id: string, status: ThreadStatus)
    ensures Close(t, id, status) == CloseAll(t, {id}, status)
  {
    assert Close(t, id, status).threads == CloseAll(t, {id}, status).threads;
  }

  lemma MarkingGrows(t: Tables, channelId: string, thread: DueThread)
    requires CountersOk(t) && ReadingOk(t, channelId, thread)
    ensures CountersOk(MarkInterpreted(t, thread.id, thread.eventSeq))
    ensures Grows(t, MarkInterpreted(t, thread.id, thread.eventSeq))
  {
    ClosingOneOpen(t, MarkInterpreted(t, thread.id, thread.eventSeq));
  }

  lemma ReleasedKeepsScans(p: System, rid: string)
    requires ScansOk(p) && rid in p.scans && !p.scans[rid].phase.Idle?
    ensures ScansOk(Released(p, rid))
  {
    var q := Released(p, rid);
    forall r <- q.scans ensures DueOk(q.store.t, q.scans[r]) && PhaseOk(q.store.t, q.inFlight, q.scans[r]) {
      assert DueOk(p.store.t, p.scans[r]) && PhaseOk(p.store.t, p.inFlight, p.scans[r]);
    }
  }

  lemma IngestKeeps(p: System, move: Move)
    requires ThreadsOk(p) && May(p, move) && move.Ingest?
    ensures ThreadsOk(After(p, move))
  {
    AppendGrows(p.store.t, move.id, move.channelId, move.contextKey, move.payload, move.agent, p.store.now);
    ScansGrow(p, After(p, move).store.t);
    ReadsGrow(p, After(p, move).store.t);
  }

  lemma ExpireKeeps(p: System, move: Move)
    requires ThreadsOk(p) && May(p, move) && move.Expire?
    ensures ThreadsOk(After(p, move))
  {
    var t := p.store.t;
    ClosingGrows(t, Stale(t, move.channelId, move.ttlSeconds, p.store.now), Expired);
    ScansGrow(p, After(p, move).store.t);
    ReadsGrow(p, After(p, move).store.t);
  }

  lemma StartScanKeeps(p: System, move: Move)
    requires ThreadsOk(p) && May(p, move) && move.StartScan?
    ensures ThreadsOk(After(p, move))
  {
    var t, q := p.store.t, After(p, move);
    var due := ReadRows(t, move.order);
    forall i | 0 <= i < |due| ensures ReadingOk(t, move.channelId, due[i]) {
      assert move.order[i] in DueSet(t, move.channelId, move.debounceMs, p.store.now);
    }
    assert DueOk(t, q.scans[move.rid]);
    assert ReadsOk(q);
  }

  lemma BeginKeeps(p: System, move: Move)
    requires ThreadsOk(p) && May(p, move) && move.Begin?
    ensures ThreadsOk(After(p, move))
  {
    var t, q, scan := p.store.t, After(p, move), p.scans[move.rid];
    assert ReadingOk(t, scan.channelId, scan.due[0]);
    forall r <- q.scans ensures DueOk(t, q.scans[r]) && PhaseOk(t, q.inFlight, q.scans[r]) {
      assert DueOk(t, p.scans[r]) && PhaseOk(t, p.inFlight, p.scans[r]);
    }
    assert ReadsOk(q);
  }

  lemma FailKeeps(p: System, move: Move)
    requires ThreadsOk(p) && May(p, move) && move.Fail?
    ensures ThreadsOk(After(p, move))
  {
    ReleasedKeepsScans(p, move.rid);
    assert ReadsOk(After(p, move));
  }

  /** The tables and the calls after an answer, before the scan moves on. */
  function Answered(p: System, rid: string, verdict: InterpretVerdict): System
    requires rid in p.scans && p.scans[rid].phase.Interpreting?
  {
    var Interpreting(thread, input) := p.scans[rid].phase;
    WithTables(p, Judge(p.store.t, thread, verdict).0).(calls := p.calls + [Call(thread.id, input)])
  }

  lemma MarkOne(t: Tables, id: string, mark: nat)
    ensures var u := MarkInterpreted(t, id, mark);
      u == t.(threads := u.threads) && u.threads.Keys == t.threads.Keys
      && forall x <- t.threads ::
           u.threads[x] == if x == id then t.threads[x].(interpretedSeq := mark) else t.threads[x]
  {}

  lemma CloseOne(t: Tables, id: string, status: ThreadStatus)
    ensures var u := Close(t, id, status);
      u == t.(threads := u.threads) && u.threads.Keys == t.threads.Keys
      && forall x <- t.threads :: u.threads[x] == if x == id then t.threads[x].(status := status) else t.threads[x]
  {}

  /** A verdict sets the mark of one thread, and discards it as noise. */
  lemma JudgeOne(t: Tables, thread: DueThread, verdict: InterpretVerdict)
    ensures var u := Judge(t, thread, verdict).0;
      u == t.(threads := u.threads) && u.threads.Keys == t.threads.Keys
      && forall x <- t.threads :: u.threads[x] ==
           if x != thread.id then t.threads[x]
           else if verdict.Noise? then t.threads[x].(interpretedSeq := thread.eventSeq, status := Discarded)
           else t.threads[x].(interpretedSeq := thread.eventSeq)
  {
    MarkOne(t, thread.id, thread.eventSeq);
    CloseOne(MarkInterpreted(t, thread.id, thread.eventSeq), thread.id, Discarded);
  }

  lemma JudgeGrows(t: Tables, channelId: string, thread: DueThread, verdict: InterpretVerdict)
    requires CountersOk(t) && ReadingOk(t, channelId, thread)
    ensures var u := Judge(t, thread, verdict).0;
      && CountersOk(u) && Grows(t, u) && u.threadEvents == t.threadEvents && u.threads.Keys == t.threads.Keys
      && forall x <- t.threads :: u.threads[x].interpretedSeq ==
           if x == thread.id then thread.eventSeq else t.threads[x].interpretedSeq
  {
    JudgeOne(t, thread, verdict);
    MarkingGrows(t, channelId, thread);
    if verdict.Noise? {
      var marked := MarkInterpreted(t, thread.id, thread.eventSeq);
      CloseIsCloseAll(marked, thread.id, Discarded);
      ClosingGrows(marked, {thread.id}, Discarded);
    }
  }

  lemma AnswerReads(p: System, rid: string, verdict: InterpretVerdict)
    requires ThreadsOk(p) && rid in p.scans && p.scans[rid].phase.Interpreting?
    ensures ReadsOk(Answered(p, rid, verdict))
  {
    var Interpreting(thread, input) := p.scans[rid].phase;
    var q := Answered(p, rid, verdict);
    assert PhaseOk(p.store.t, p.inFlight, p.scans[rid]);
    JudgeGrows(p.store.t, p.scans[rid].channelId, thread, verdict);
    forall id <- q.store.t.threads
      ensures WasRead(q.calls, id, q.store.t.threads[id].interpretedSeq, ThreadEventsOf(q.store.t, id))
    {
      if id == thread.id {
        assert q.calls[|p.calls|] == Call(thread.id, input);
      } else {
        assert WasRead(p.calls, id, p.store.t.threads[id].interpretedSeq, ThreadEventsOf(p.store.t, id));
        assert forall k :: 0 <= k < |p.calls| ==> q.calls[k] == p.calls[k];
      }
    }
  }

  lemma AnswerKeeps(p: System, move: Move)
    requires ThreadsOk(p) && May(p, move) && move.Answer?
    ensures ThreadsOk(After(p, move))
  {
    var rid := move.rid;
    var thread, q := p.scans[rid].phase.thread, Answered(p, rid, move.verdict);
    assert PhaseOk(p.store.t, p.inFlight, p.scans[rid]);
    JudgeGrows(p.store.t, p.scans[rid].channelId, thread, move.verdict);
    AnswerReads(p, rid, move.verdict);
    ScansGrow(p, q.store.t);
    assert ScansOk(q);
    var phase := Judge(p.store.t, thread, move.verdict).1;
    if phase.Idle? {
      ReleasedKeepsScans(q, rid);
    } else {
      NextPhaseKeepsScans(q, rid, phase);
    }
  }

  lemma NextPhaseKeepsScans(p: System, rid: string, phase: Phase)
    requires ScansOk(p) && rid in p.scans && !p.scans[rid].phase.Idle?
    requires !phase.Idle? && !phase.Interpreting? && phase.thread == p.scans[rid].phase.thread
    ensures ScansOk(p.(scans := p.scans[rid := p.scans[rid].(phase := phase)]))
  {
    var q := p.(scans := p.scans[rid := p.scans[rid].(phase := phase)]);
    forall r <- q.scans ensures DueOk(q.store.t, q.scans[r]) && PhaseOk(q.store.t, q.inFlight, q.scans[r]) {
      assert DueOk(p.store.t, p.scans[r]) && PhaseOk(p.store.t, p.inFlight, p.scans[r]);
    }
  }

  lemma DispatchFrame(t: Tables, channelId: string, phase: Phase, taskId: string, ref: string, now: int)
    requires phase.Dispatching?
    ensures var u := Dispatch(t, channelId, phase, taskId, ref, now).tables;
      u.threads == t.threads && u.threadEvents == t.threadEvents && u.channels == t.channels && Grows(t, u)
  {}

  lemma CreateTaskKeeps(p: System, move: Move)
    requires ThreadsOk(p) && May(p, move) && move.CreateTask?
    ensures ThreadsOk(After(p, move))
  {
    var rid, scan := move.rid, p.scans[move.rid];
    var created := Dispatch(p.store.t, scan.channelId, scan.phase, move.taskId, move.ref, p.store.now);
    var q := WithTables(p, created.tables);
    DispatchFrame(p.store.t, scan.channelId, scan.phase, move.taskId, move.ref, p.store.now);
    ScansGrow(p, created.tables);
    ReadsGrow(p, created.tables);
    if created.result.Ok? {
      NextPhaseKeepsScans(q, rid, Closing(scan.phase.thread));
    } else {
      AbortKeepsScans(q, rid);
    }
    assert ReadsOk(After(p, move));
  }

  lemma AbortKeepsScans(p: System, rid: string)
    requires ScansOk(p) && rid in p.scans && !p.scans[rid].phase.Idle?
    ensures ScansOk(p.(inFlight := p.inFlight - {p.scans[rid].phase.thread.id}, scans := p.scans - {rid}))
  {
    ReleasedKeepsScans(p, rid);
    var q := Released(p, rid);
    assert forall r <- p.scans - {rid} :: q.scans[r] == p.scans[r];
  }

  lemma CloseThreadKeeps(p: System, move: Move)
    requires ThreadsOk(p) && May(p, move) && move.CloseThread?
    ensures ThreadsOk(After(p, move))
  {
    var id := p.scans[move.rid].phase.thread.id;
    var u := Close(p.store.t, id, Dispatched);
    CloseIsCloseAll(p.store.t, id, Dispatched);
    ClosingGrows(p.store.t, {id}, Dispatched);
    ScansGrow(p, u);
    ReadsGrow(p, u);
    ReleasedKeepsScans(WithTables(p, u), move.rid);
    assert ReadsOk(After(p, move));
  }

  lemma TaskMoveKeeps(p: System, move: Move)
    requires ThreadsOk(p) && May(p, move) && move.TaskMove?
    ensures ThreadsOk(After(p, move))
  {
    TaskStepsFrame(p.store, move.step);
    var u := Apply(p.store, move.step).t;
    ScansGrow(p, u);
    ReadsGrow(p, u);
    assert ScansOk(After(p, move));
    assert ReadsOk(After(p, move));
  }

  lemma ReconfigureKeeps(p: System, move: Move)
    requires ThreadsOk(p) && May(p, move) && move.Reconfigure?
    ensures ThreadsOk(After(p, move))
  {
    var u := After(p, move).store.t;
    ScansGrow(p, u);
    ReadsGrow(p, u);
  }

  lemma MoveKeepsThreads(p: System, move: Move)
    requires ThreadsOk(p) && May(p, move)
    ensures ThreadsOk(After(p, move))
  {
    match move
    case Ingest(_, _, _, _, _) => IngestKeeps(p, move);
    case Expire(_, _) => ExpireKeeps(p, move);
    case StartScan(_, _, _, _) => StartScanKeeps(p, move);
    case Begin(_) => BeginKeeps(p, move);
    case Fail(_) => FailKeeps(p, move);
    case Answer(_, _) => AnswerKeeps(p, move);
    case CreateTask(_, _, _) => CreateTaskKeeps(p, move);
    case CloseThread(_) => CloseThreadKeeps(p, move);
    case EndScan(_) => assert ReadsOk(After(p, move));
    case TaskMove(_) => TaskMoveKeeps(p, move);
    case Reconfigure(_) => ReconfigureKeeps(p, move);
    case Restart => assert ReadsOk(After(p, move));
  }

  lemma {:induction false} RunsKeepThreads(p: System, moves: seq<Move>)
    requires (Fresh(p) || ThreadsOk(p)) && Playable(p, moves)
    ensures ThreadsOk(Play(p, moves))
    decreases |moves|
  {
    if moves != [] {
      RunsKeepThreads(p, moves[..|moves| - 1]);
      MoveKeepsThreads(Play(p, moves[..|moves| - 1]), moves[|moves| - 1]);
    }
  }

  /**
    * No event is skipped, under any interleaving: the counter is the number of stored events,
    * and every event below the mark was in the input of some interpretation that succeeded.
    */
  lemma NoEventIsSkipped(p: System, moves: seq<Move>, id: string)
    requires Fresh(p) && Playable(p, moves) && id in Play(p, moves).store.t.threads
    ensures var q := Play(p, moves);
      var row, events := q.store.t.threads[id], ThreadEventsOf(q.store.t, id);
      && row.eventSeq == |events| && row.interpretedSeq <= |events|
      && forall i :: 0 <= i < row.interpretedSeq ==>
           exists k :: 0 <= k < |q.calls| && q.calls[k].threadId == id
                    && i < |q.calls[k].input| && q.calls[k].input[i] == events[i]
  {
    RunsKeepThreads(p, moves);
    var q := Play(p, moves);
    assert WasRead(q.calls, id, q.store.t.threads[id].interpretedSeq, ThreadEventsOf(q.store.t, id));
  }

  /** An open thread is due again as soon as it is quiet, exactly when it holds an event beyond the mark. */
  lemma OpenThreadsStayDue(p: System, moves: seq<Move>, id: string, debounceMs: nat, now: int)
    requires Fresh(p) && Playable(p, moves) && id in Play(p, moves).store.t.threads
    requires var row := Play(p, moves).store.t.threads[id]; row.status == Open && row.lastEventAt + debounceMs <= now
    ensures var t := Play(p, moves).store.t;
      id in DueSet(t, t.threads[id].channelId, debounceMs, now)
      <==> t.threads[id].interpretedSeq < |ThreadEventsOf(t, id)|
  {
    RunsKeepThreads(p, moves);
  }

  /** The mark an answer sets leaves out what arrived while the interpreter worked. */
  lemma LateEventsStayUnread(p: System, moves: seq<Move>, rid: string, verdict: InterpretVerdict)
    requires Fresh(p) && Playable(p, moves) && May(Play(p, moves), Answer(rid, verdict))
    ensures var q := Play(p, moves);
      var Interpreting(thread, input) := q.scans[rid].phase;
      var u := After(q, Answer(rid, verdict)).store.t;
      && thread.id in u.threads && u.threads[thread.id].interpretedSeq <= |input|
      && (|input| < |ThreadEventsOf(u, thread.id)| ==>
            u.threads[thread.id].interpretedSeq < u.threads[thread.id].eventSeq)
  {
    RunsKeepThreads(p, moves);
    AnswerMarks(Play(p, moves), rid, verdict);
  }

  lemma AnswerMarks(q: System, rid: string, verdict: InterpretVerdict)
    requires ThreadsOk(q) && May(q, Answer(rid, verdict))
    ensures var Interpreting(thread, input) := q.scans[rid].phase;
      var u := After(q, Answer(rid, verdict)).store.t;
      && thread.id in u.threads && u.threads[thread.id].interpretedSeq <= |input|
      && (|input| < |ThreadEventsOf(u, thread.id)| ==>
            u.threads[thread.id].interpretedSeq < u.threads[thread.id].eventSeq)
  {
    assert PhaseOk(q.store.t, q.inFlight, q.scans[rid]);
    JudgeGrows(q.store.t, q.scans[rid].channelId, q.scans[rid].phase.thread, verdict);
  }
}
