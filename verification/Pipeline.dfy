/**
  * Collector, interpreter and dispatcher: apps/control-plane/src/pipeline.ts. Each stretch of
  * code between two awaits is one atomic section.
  */
module Pipeline {
  import opened Wrappers
  import opened TaskDomain
  import opened Schema
  import opened TaskStore
  import opened ThreadStore
  import opened ChannelRegistry

  datatype InterpretVerdict =
    | FastPass(labelName: string, instruction: string)
    | CompleteContext(labelName: string, instruction: string)
    | NeedsContext
    | Noise

  /** A due thread as the scan read it when it started. */
  datatype DueThread = DueThread(id: string, eventSeq: nat, agent: Option<string>)

  /** Where a runDue call stands: between threads, or awaiting the interpreter or the task store. */
  datatype Phase =
    | Idle
    | Interpreting(thread: DueThread, input: seq<ThreadEvent>)
    | Dispatching(thread: DueThread, labelName: string, instruction: string)
    | Closing(thread: DueThread)

  /** One runDue call. */
  datatype Scan = Scan(channelId: string, due: seq<DueThread>, phase: Phase)

  function ReadRows(t: Tables, ids: seq<string>): (due: seq<DueThread>)
    requires forall i :: 0 <= i < |ids| ==> ids[i] in t.threads
    ensures |due| == |ids|
    ensures forall i :: 0 <= i < |ids| ==>
      due[i] == DueThread(ids[i], t.threads[ids[i]].eventSeq, t.threads[ids[i]].agent)
  {
    seq(|ids|, i requires 0 <= i < |ids| => DueThread(ids[i], t.threads[ids[i]].eventSeq, t.threads[ids[i]].agent))
  }

  // ----- The sections of interpretThread -----

  /** Takes the next due thread, unless another call interprets it right now. */
  function BeginNext(t: Tables, inFlight: set<string>, scan: Scan): (set<string>, Scan)
    requires scan.phase.Idle? && scan.due != []
  {
    var thread := scan.due[0];
    if thread.id in inFlight then (inFlight, scan.(due := scan.due[1..]))
    else (inFlight + {thread.id},
          Scan(scan.channelId, scan.due[1..], Interpreting(thread, ThreadEventsOf(t, thread.id))))
  }

  /** The interpreter has answered: mark what was read at the start, then act on the verdict. */
  function Judge(t: Tables, thread: DueThread, verdict: InterpretVerdict): (Tables, Phase) {
    var marked := MarkInterpreted(t, thread.id, thread.eventSeq);
    match verdict
    case NeedsContext => (marked, Idle)
    case Noise => (Close(marked, thread.id, Discarded), Idle)
    case FastPass(labelName, instruction) => (marked, Dispatching(thread, labelName, instruction))
    case CompleteContext(labelName, instruction) => (marked, Dispatching(thread, labelName, instruction))
  }

  function Dispatch(t: Tables, channelId: string, phase: Phase, taskId: string, ref: string, now: int): Outcome
    requires phase.Dispatching?
  {
    Create(t, taskId, ref, channelId, phase.labelName, phase.instruction, phase.thread.agent,
           Some(phase.thread.id), now)
  }

  // ----- One whole runDue call with nothing in between -----

  /** What the outside decides for one thread: the interpreter's answer, None when it throws, and the UUIDs drawn. */
  datatype Turn = Turn(verdict: Option<InterpretVerdict>, taskId: string, ref: string)

  /** The tables, how many threads were handled, and false once runDue has thrown. */
  datatype Progress = Progress(tables: Tables, handled: nat, ok: bool)

  /** The tables after one thread; false when its task could not be created. */
  function Interpret(t: Tables, channelId: string, thread: DueThread, turn: Turn, now: int): (Tables, bool) {
    if turn.verdict.None? then (t, true)
    else
      var (judged, phase) := Judge(t, thread, turn.verdict.value);
      if !phase.Dispatching? then (judged, true)
      else
        var created := Dispatch(judged, channelId, phase, turn.taskId, turn.ref, now);
        if created.result.Ok? then (Close(created.tables, thread.id, Dispatched), true) else (created.tables, false)
  }

  /** Goes through the due threads, past those another call is busy with, until one throws. */
  function InterpretAll(t: Tables, channelId: string, due: seq<DueThread>, busy: set<string>,
                        turns: string -> Turn, now: int): Progress
  {
    if due == [] then Progress(t, 0, true)
    else
      var before, thread := InterpretAll(t, channelId, due[..|due| - 1], busy, turns, now), due[|due| - 1];
      if !before.ok || thread.id in busy then before
      else
        var (tables, ok) := Interpret(before.tables, channelId, thread, turns(thread.id), now);
        Progress(tables, if ok then before.handled + 1 else before.handled, ok)
  }

  /**
    * What an interpretation comes to: a failure changes nothing; noise discards the thread; more
    * context leaves it open; a pass makes the task the verdict describes and dispatches the thread,
    * unless a constraint stops the task. Whenever there is an answer the events read are marked.
    */
  lemma {:induction false} VerdictDecides(t: Tables, channelId: string, thread: DueThread, turn: Turn, now: int)
    requires thread.id in t.threads
    ensures var (u, ok) := Interpret(t, channelId, thread, turn, now);
      && u.channels == t.channels && u.threadEvents == t.threadEvents && u.threads.Keys == t.threads.Keys
      && (forall x <- t.threads :: x != thread.id ==> u.threads[x] == t.threads[x])
      && var before, after := t.threads[thread.id], u.threads[thread.id];
         match turn.verdict
         case None => ok && u == t
         case Some(NeedsContext) =>
           ok && u == t.(threads := u.threads) && after == before.(interpretedSeq := thread.eventSeq)
         case Some(Noise) =>
           && ok && u == t.(threads := u.threads)
           && after == before.(interpretedSeq := thread.eventSeq, status := Discarded)
         case Some(pass) =>
           && after == before.(interpretedSeq := thread.eventSeq, status := if ok then Dispatched else before.status)
           && (ok <==> channelId in t.channels && turn.taskId !in t.tasks && turn.ref !in t.payloads)
           && (!ok ==> u.tasks == t.tasks)
           && (ok ==> u.payloads == t.payloads[turn.ref := pass.instruction])
           && (ok ==> u.tasks == t.tasks[turn.taskId := TaskRow(channelId, pass.labelName, turn.ref, Pending,
                                                                thread.agent, Some(thread.id), None, None, now)])
  {
    if turn.verdict.Some? {
      var marked := MarkInterpreted(t, thread.id, thread.eventSeq);
      assert marked.threads[thread.id] == t.threads[thread.id].(interpretedSeq := thread.eventSeq);
      match turn.verdict.value
      case FastPass(labelName, instruction) =>
        PassDecides(marked, channelId, thread, labelName, instruction, turn, now);
      case CompleteContext(labelName, instruction) =>
        PassDecides(marked, channelId, thread, labelName, instruction, turn, now);
      case _ =>
    }
  }

  /** What the dispatch at the end of a passing interpretation comes to. */
  lemma PassDecides(t: Tables, channelId: string, thread: DueThread, labelName: string, instruction: string,
                    turn: Turn, now: int)
    requires thread.id in t.threads
    ensures var created := Dispatch(t, channelId, Dispatching(thread, labelName, instruction),
                                    turn.taskId, turn.ref, now);
      var u, ok := created.tables, created.result.Ok?;
      && u.threads == t.threads
      && (ok <==> channelId in t.channels && turn.taskId !in t.tasks && turn.ref !in t.payloads)
      && (!ok ==> u.tasks == t.tasks)
      && u.channels == t.channels && u.threadEvents == t.threadEvents
      && (ok ==> u.payloads == t.payloads[turn.ref := instruction])
      && (ok ==> u.tasks == t.tasks[turn.taskId := TaskRow(channelId, labelName, turn.ref, Pending,
                                                           thread.agent, Some(thread.id), None, None, now)])
  {}

  class Pipeline {
    const db: Database
    const channels: ChannelRegistry
    const threads: ThreadStore
    const tasks: TaskStore
    var inFlight: set<string>

    ghost predicate Valid()
      reads this
    {
      threads.db == db && tasks.db == db && channels.db == db
    }

    constructor (db: Database, channels: ChannelRegistry, threads: ThreadStore, tasks: TaskStore)
      requires threads.db == db && tasks.db == db && channels.db == db
      ensures Valid() && inFlight == {} && this.db == db && this.channels == channels
    {
      this.db, this.channels, this.threads, this.tasks, inFlight := db, channels, threads, tasks, {};
    }

    /** A passthrough event becomes a task, any other joins the open thread of its key. */
    method Ingest(channelId: string, payload: string, agent: Option<string>, contextKey: Option<string>,
                  uuid: string, ref: string, now: int)
      returns (taskId: Option<string>, threadId: Option<string>)
      requires Valid()
      modifies db
      ensures Valid()
      ensures channelId !in channels.runtimes ==>
        db.Snapshot() == old(db.Snapshot()) && taskId.None? && threadId.None?
      ensures channelId in channels.runtimes && channels.runtimes[channelId].interpreter.mode == Passthrough ==>
        && threadId.None?
        && var outcome := Create(old(db.Snapshot()), uuid, ref, channelId,
                                 channels.runtimes[channelId].labelName, payload, agent, None, now);
           db.Snapshot() == outcome.tables && taskId == (if outcome.result.Ok? then Some(uuid) else None)
      ensures channelId in channels.runtimes && channels.runtimes[channelId].interpreter.mode != Passthrough ==>
        && taskId.None?
        && (threadId.None? ==> db.Snapshot() == old(db.Snapshot()))
        && (threadId.Some? ==>
              && Target(old(db.Snapshot()), threadId.value, channelId, contextKey.GetOr(uuid))
              && db.Snapshot() == Append(old(db.Snapshot()), threadId.value, channelId, contextKey.GetOr(uuid),
                                         payload, agent, now))
    {
      taskId, threadId := None, None;
      if channelId !in channels.runtimes {
        return;
      }
      var channel := channels.runtimes[channelId];
      if channel.interpreter.mode == Passthrough {
        var r := tasks.CreateTask(uuid, ref, channelId, channel.labelName, payload, agent, None, now);
        taskId := if r.Ok? then Some(uuid) else None;
      } else {
        threadId := threads.AppendEvent(channelId, contextKey.GetOr(uuid), payload, agent, uuid, now);
      }
    }

    /** From the interpreter's answer to the end of interpretThread. */
    method InterpretThread(channelId: string, thread: DueThread, turn: Turn, now: int) returns (ok: bool)
      requires Valid()
      modifies db
      ensures (db.Snapshot(), ok) == Interpret(old(db.Snapshot()), channelId, thread, turn, now)
    {
      if turn.verdict.None? {
        return true;
      }
      threads.MarkThread(thread.id, thread.eventSeq);
      match turn.verdict.value {
        case NeedsContext =>
          ok := true;
        case Noise =>
          threads.CloseThread(thread.id, Discarded);
          ok := true;
        case FastPass(labelName, instruction) =>
          ok := DispatchThread(channelId, thread, labelName, instruction, turn, now);
        case CompleteContext(labelName, instruction) =>
          ok := DispatchThread(channelId, thread, labelName, instruction, turn, now);
      }
    }

    method DispatchThread(channelId: string, thread: DueThread, labelName: string, instruction: string,
                          turn: Turn, now: int)
      returns (ok: bool)
      requires Valid()
      modifies db
      ensures var created := Dispatch(old(db.Snapshot()), channelId, Dispatching(thread, labelName, instruction),
                                      turn.taskId, turn.ref, now);
        && ok == created.result.Ok?
        && db.Snapshot() == if ok then Close(created.tables, thread.id, Dispatched) else created.tables
    {
      var r := tasks.CreateTask(turn.taskId, turn.ref, channelId, labelName, instruction, thread.agent,
                                Some(thread.id), now);
      ok := r.Ok?;
      if ok {
        threads.CloseThread(thread.id, Dispatched);
      }
    }

    /** One pass of the loop: the thread is in flight while it is interpreted, also when that throws. */
    method TakeThread(channelId: string, thread: DueThread, turn: Turn, now: int) returns (ok: bool)
      requires Valid() && thread.id !in inFlight
      modifies this`inFlight, db
      ensures inFlight == old(inFlight)
      ensures (db.Snapshot(), ok) == Interpret(old(db.Snapshot()), channelId, thread, turn, now)
    {
      inFlight := inFlight + {thread.id};
      ok := InterpretThread(channelId, thread, turn, now);
      inFlight := inFlight - {thread.id};
    }

    /**
      * runDue with its loop, when nothing runs between its awaits: other calls may be busy with
      * threads, but stay where they are. `ok` is false when it throws.
      */
    method RunDue(channelId: string, turns: string -> Turn, now: int)
      returns (handled: nat, ok: bool, ghost due: seq<string>)
      requires Valid()
      modifies this`inFlight, db
      ensures inFlight == old(inFlight)
      ensures channelId !in channels.runtimes || channels.runtimes[channelId].interpreter.mode == Passthrough ==>
        handled == 0 && ok && db.Snapshot() == old(db.Snapshot())
      ensures channelId in channels.runtimes && channels.runtimes[channelId].interpreter.mode != Passthrough ==>
        var t := old(db.Snapshot());
        && Enumerates(due, DueSet(t, channelId, channels.runtimes[channelId].interpreter.debounceMs, now))
        && Ordered(t, due)
        && Progress(db.Snapshot(), handled, ok)
           == InterpretAll(t, channelId, ReadRows(t, due), old(inFlight), turns, now)
    {
      handled, ok, due := 0, true, [];
      if channelId !in channels.runtimes || channels.runtimes[channelId].interpreter.mode == Passthrough {
        return;
      }
      ghost var t, busy := db.Snapshot(), inFlight;
      var ids := threads.DueForInterpretation(channelId, channels.runtimes[channelId].interpreter.debounceMs, now);
      var rows := ReadRows(db.Snapshot(), ids);
      due := ids;
      for i := 0 to |rows|
        invariant inFlight == busy && ok
        invariant Progress(db.Snapshot(), handled, ok) == InterpretAll(t, channelId, rows[..i], busy, turns, now)
      {
        assert rows[..i + 1][..i] == rows[..i];
        if rows[i].id !in inFlight {
          ok := TakeThread(channelId, rows[i], turns(rows[i].id), now);
          if !ok {
            ThrownStays(t, channelId, rows, busy, turns, now, i + 1);
            return;
          }
          handled := handled + 1;
        }
      }
      assert rows[..|rows|] == rows;
    }
  }

  /** Once creating a task has failed, the rest of the due list is not looked at. */
  lemma {:induction false} ThrownStays(t: Tables, channelId: string, due: seq<DueThread>, busy: set<string>,
                                       turns: string -> Turn, now: int, k: nat)
    requires k <= |due| && !InterpretAll(t, channelId, due[..k], busy, turns, now).ok
    ensures InterpretAll(t, channelId, due, busy, turns, now) == InterpretAll(t, channelId, due[..k], busy, turns, now)
    decreases |due|
  {
    if k < |due| {
      assert due[..|due| - 1][..k] == due[..k];
      ThrownStays(t, channelId, due[..|due| - 1], busy, turns, now, k);
    } else {
      assert due[..k] == due;
    }
  }
}
