/** A runDue call with nothing in between, as moves of the interleaved system. */
module PipelineRefinement {
  import opened Wrappers
  import opened Schema
  import opened TaskRuns
  import opened ThreadStore
  import opened Pipeline
  import opened PipelineRuns

  /** The scan has its next thread in the interpreter. */
  function Awaiting(p: System, rid: string): System
    requires rid in p.scans && p.scans[rid].due != []
  {
    var scan := p.scans[rid];
    p.(inFlight := p.inFlight + {scan.due[0].id},
       scans := p.scans[rid := Scan(scan.channelId, scan.due[1..],
                                    Interpreting(scan.due[0], ThreadEventsOf(p.store.t, scan.due[0].id)))])
  }

  /** The call is past its thread: on to the next, or gone when it threw. */
  predicate Passed(p: System, q: System, rid: string, tables: Tables, ok: bool)
    requires rid in p.scans && p.scans[rid].due != []
  {
    && q.store == p.store.(t := tables) && q.inFlight == p.inFlight
    && q.scans == if ok then p.scans[rid := Scan(p.scans[rid].channelId, p.scans[rid].due[1..], Idle)]
                  else p.scans - {rid}
  }

  lemma BeginAwaits(p: System, rid: string)
    requires May(p, Begin(rid)) && p.scans[rid].due[0].id !in p.inFlight
    ensures After(p, Begin(rid)) == Awaiting(p, rid)
    ensures Released(Awaiting(p, rid), rid).inFlight == p.inFlight
  {}

  lemma FailPasses(p: System, rid: string)
    requires May(p, Begin(rid)) && p.scans[rid].due[0].id !in p.inFlight
    ensures May(Awaiting(p, rid), Fail(rid))
    ensures Passed(p, After(Awaiting(p, rid), Fail(rid)), rid, p.store.t, true)
  {}

  /** After the answer: the thread is done with, or about to be dispatched. */
  lemma AnswerPasses(p: System, rid: string, verdict: InterpretVerdict)
    requires May(p, Begin(rid)) && p.scans[rid].due[0].id !in p.inFlight
    ensures May(Awaiting(p, rid), Answer(rid, verdict))
    ensures var q := After(Awaiting(p, rid), Answer(rid, verdict));
      var (judged, phase) := Judge(p.store.t, p.scans[rid].due[0], verdict);
      if phase.Idle? then Passed(p, q, rid, judged, true)
      else
        && q.store == p.store.(t := judged) && q.inFlight == p.inFlight + {p.scans[rid].due[0].id}
        && q.scans == p.scans[rid := Scan(p.scans[rid].channelId, p.scans[rid].due[1..], phase)]
  {}

  /** Creating the task, and closing the thread when that went well. */
  lemma DispatchPasses(p: System, q: System, rid: string, phase: Phase, taskId: string, ref: string)
    returns (moves: seq<Move>)
    requires May(p, Begin(rid)) && p.scans[rid].due[0].id !in p.inFlight
    requires phase.Dispatching? && phase.thread == p.scans[rid].due[0] && q.store.now == p.store.now
    requires q.inFlight == p.inFlight + {p.scans[rid].due[0].id}
    requires q.scans == p.scans[rid := Scan(p.scans[rid].channelId, p.scans[rid].due[1..], phase)]
    ensures Playable(q, moves)
    ensures var created := Dispatch(q.store.t, p.scans[rid].channelId, phase, taskId, ref, p.store.now);
      if created.result.Ok?
      then Passed(p, Play(q, moves), rid, Close(created.tables, phase.thread.id, Dispatched), true)
      else Passed(p, Play(q, moves), rid, created.tables, false)
  {
    assert [] + [CreateTask(rid, taskId, ref)] == [CreateTask(rid, taskId, ref)];
    PlaySnoc(q, [], CreateTask(rid, taskId, ref));
    moves := [CreateTask(rid, taskId, ref)];
    if Play(q, moves).scans.Keys == q.scans.Keys {
      PlaySnoc(q, moves, CloseThread(rid));
      moves := moves + [CloseThread(rid)];
    }
  }

  /** One pass of the loop is a run of the system that touches no other call. */
  lemma TurnIsARun(p: System, rid: string, turn: Turn) returns (moves: seq<Move>)
    requires May(p, Begin(rid)) && p.scans[rid].due[0].id !in p.inFlight
    ensures Playable(p, moves)
    ensures var (tables, ok) := Interpret(p.store.t, p.scans[rid].channelId, p.scans[rid].due[0], turn, p.store.now);
      Passed(p, Play(p, moves), rid, tables, ok)
  {
    assert [] + [Begin(rid)] == [Begin(rid)];
    PlaySnoc(p, [], Begin(rid));
    BeginAwaits(p, rid);
    moves := [Begin(rid)];
    if turn.verdict.None? {
      FailPasses(p, rid);
      PlaySnoc(p, moves, Fail(rid));
      moves := moves + [Fail(rid)];
    } else {
      AnswerPasses(p, rid, turn.verdict.value);
      PlaySnoc(p, moves, Answer(rid, turn.verdict.value));
      moves := moves + [Answer(rid, turn.verdict.value)];
      var phase := Judge(p.store.t, p.scans[rid].due[0], turn.verdict.value).1;
      if phase.Dispatching? {
        var rest := DispatchPasses(p, Play(p, moves), rid, phase, turn.taskId, turn.ref);
        PlayOn(p, moves, rest);
        moves := moves + rest;
      }
    }
  }

  lemma SkipsBusy(p: System, rid: string)
    requires May(p, Begin(rid)) && p.scans[rid].due[0].id in p.inFlight
    ensures Passed(p, After(p, Begin(rid)), rid, p.store.t, true)
  {}

  /** What a pass over the next thread leads to. */
  predicate PassOf(p: System, q: System, rid: string, turn: Turn)
    requires rid in p.scans && p.scans[rid].due != []
  {
    var t, thread := p.store.t, p.scans[rid].due[0];
    var (tables, ok) := if thread.id in p.inFlight then (t, true)
                        else Interpret(t, p.scans[rid].channelId, thread, turn, p.store.now);
    Passed(p, q, rid, tables, ok)
  }

  /** A pass over the next thread, whether another call is busy with it or not. */
  lemma PassIsARun(p: System, rid: string, turn: Turn) returns (moves: seq<Move>)
    requires May(p, Begin(rid))
    ensures Playable(p, moves) && PassOf(p, Play(p, moves), rid, turn)
  {
    if p.scans[rid].due[0].id in p.inFlight {
      SkipsBusy(p, rid);
      assert [] + [Begin(rid)] == [Begin(rid)];
      PlaySnoc(p, [], Begin(rid));
      moves := [Begin(rid)];
    } else {
      moves := TurnIsARun(p, rid, turn);
    }
  }

  /** Where the first `k` passes of the loop have led. */
  ghost predicate AfterPasses(p: System, rid: string, turns: string -> Turn, k: nat, q: System)
    requires rid in p.scans && k <= |p.scans[rid].due|
  {
    var due := p.scans[rid].due;
    var done := InterpretAll(p.store.t, p.scans[rid].channelId, due[..k], p.inFlight, turns, p.store.now);
    && q.store == p.store.(t := done.tables) && q.inFlight == p.inFlight
    && q.scans == if done.ok then p.scans[rid := Scan(p.scans[rid].channelId, due[k..], Idle)] else p.scans - {rid}
  }

  lemma OnePassMore(p: System, rid: string, turns: string -> Turn, k: nat, q: System)
    requires rid in p.scans && 0 < k <= |p.scans[rid].due| && AfterPasses(p, rid, turns, k - 1, q)
    ensures var due := p.scans[rid].due;
      if rid !in q.scans then AfterPasses(p, rid, turns, k, q)
      else
        && q.scans[rid] == Scan(p.scans[rid].channelId, due[k - 1..], Idle)
        && forall r :: PassOf(q, r, rid, turns(due[k - 1].id)) ==> AfterPasses(p, rid, turns, k, r)
  {
    var due := p.scans[rid].due;
    assert due[..k][..k - 1] == due[..k - 1] && due[k - 1..][1..] == due[k..];
  }

  /** The first `k` passes of the loop. */
  lemma {:induction false} PassesAreARun(p: System, rid: string, turns: string -> Turn, k: nat)
    returns (moves: seq<Move>)
    requires rid in p.scans && p.scans[rid].phase.Idle? && k <= |p.scans[rid].due|
    ensures Playable(p, moves) && AfterPasses(p, rid, turns, k, Play(p, moves))
    decreases k
  {
    if k == 0 {
      moves := [];
      assert p.scans[rid].due[0..] == p.scans[rid].due;
    } else {
      moves := PassesAreARun(p, rid, turns, k - 1);
      var q := Play(p, moves);
      OnePassMore(p, rid, turns, k, q);
      if rid in q.scans {
        var more := PassIsARun(q, rid, turns(p.scans[rid].due[k - 1].id));
        PlayOn(p, moves, more);
        moves := moves + more;
      }
    }
  }

  lemma {:induction false} FailuresChangeNothing(t: Tables, channelId: string, due: seq<DueThread>,
                                                 busy: set<string>, now: int)
    ensures var done := InterpretAll(t, channelId, due, busy, x => Turn(None, "", ""), now);
      done.ok && done.tables == t
    decreases |due|
  {
    if due != [] {
      FailuresChangeNothing(t, channelId, due[..|due| - 1], busy, now);
    }
  }

  /** When the interpreter fails on its next `k` threads, a call is past them and nothing else has changed. */
  lemma FailuresSkip(p: System, rid: string, k: nat) returns (moves: seq<Move>)
    requires rid in p.scans && p.scans[rid].phase.Idle? && k <= |p.scans[rid].due|
    ensures Playable(p, moves)
    ensures var q := Play(p, moves);
      && q.store == p.store && q.inFlight == p.inFlight
      && q.scans == p.scans[rid := Scan(p.scans[rid].channelId, p.scans[rid].due[k..], Idle)]
  {
    moves := PassesAreARun(p, rid, x => Turn(None, "", ""), k);
    FailuresChangeNothing(p.store.t, p.scans[rid].channelId, p.scans[rid].due[..k], p.inFlight, p.store.now);
  }

  /**
    * What RunDue does with nothing in between is one of the interleaved runs, whatever the other
    * calls are busy with: so all that is proved of runs holds of it.
    */
  lemma RunDueIsARun(p: System, rid: string, channelId: string, debounceMs: nat, order: seq<string>,
                     turns: string -> Turn)
    returns (moves: seq<Move>)
    requires May(p, StartScan(rid, channelId, debounceMs, order))
    ensures Playable(p, moves)
    ensures var done := InterpretAll(p.store.t, channelId, ReadRows(p.store.t, order), p.inFlight, turns, p.store.now);
      && Play(p, moves).store == p.store.(t := done.tables)
      && Play(p, moves).inFlight == p.inFlight && Play(p, moves).scans == p.scans
  {
    var start := StartScan(rid, channelId, debounceMs, order);
    assert [] + [start] == [start];
    PlaySnoc(p, [], start);
    var rest := LoopIsARun(Play(p, [start]), rid, turns);
    PlayOn(p, [start], rest);
    moves := [start] + rest;
  }

  /** All passes of the loop, and the end of the call if it has not thrown. */
  lemma LoopIsARun(p: System, rid: string, turns: string -> Turn) returns (moves: seq<Move>)
    requires rid in p.scans && p.scans[rid].phase.Idle?
    ensures Playable(p, moves)
    ensures var scan, q := p.scans[rid], Play(p, moves);
      && q.store.t == InterpretAll(p.store.t, scan.channelId, scan.due, p.inFlight, turns, p.store.now).tables
      && q.store.now == p.store.now && q.inFlight == p.inFlight && q.scans == p.scans - {rid}
  {
    var due := p.scans[rid].due;
    moves := PassesAreARun(p, rid, turns, |due|);
    assert due[..|due|] == due;
    if rid in Play(p, moves).scans {
      PlaySnoc(p, moves, EndScan(rid));
      moves := moves + [EndScan(rid)];
    }
  }

  // ----- An open thread comes up for interpretation -----

  /** The order a query may return the due threads in. */
  lemma {:induction false} DueOrder(t: Tables, ids: set<string>) returns (order: seq<string>)
    requires ids <= t.threads.Keys
    ensures Enumerates(order, ids) && Ordered(t, order)
    decreases ids
  {
    order := [];
    if ids != {} {
      var first := LeastRecent(t, ids);
      var rest := DueOrder(t, ids - {first});
      order := [first] + rest;
    }
  }

  /**
    * Once it is quiet, an open thread with events beyond its mark is in the list of the next call:
    * nothing but the clock has moved, and the call has it ahead.
    */
  lemma OpenGetsListed(p: System, id: string) returns (moves: seq<Move>, rid: string, k: nat)
    requires id in p.store.t.threads && p.store.t.threads[id].status == Open
    requires p.store.t.threads[id].interpretedSeq < p.store.t.threads[id].eventSeq
    ensures Playable(p, moves) && rid !in p.scans
    ensures var q := Play(p, moves);
      && q.store.t == p.store.t && q.inFlight == p.inFlight && q.calls == p.calls
      && q.scans.Keys == p.scans.Keys + {rid} && (forall r <- p.scans :: q.scans[r] == p.scans[r])
      && q.scans[rid].phase.Idle? && q.scans[rid].channelId == p.store.t.threads[id].channelId
      && k < |q.scans[rid].due| && q.scans[rid].due[k].id == id
  {
    var row := p.store.t.threads[id];
    var ms := if row.lastEventAt > p.store.now then row.lastEventAt - p.store.now else 0;
    var wait := TaskMove(TickStep(ms));
    assert [] + [wait] == [wait];
    TimePasses(p, ms);
    PlaySnoc(p, [], wait);
    var start;
    start, k := QuietGetsListed(Play(p, [wait]), id);
    rid := start.rid;
    PlaySnoc(p, [wait], start);
    moves := [wait] + [start];
  }

  lemma TimePasses(p: System, ms: nat)
    ensures May(p, TaskMove(TickStep(ms)))
    ensures After(p, TaskMove(TickStep(ms))) == p.(store := p.store.(now := p.store.now + ms))
  {}

  /** A call of the thread's channel lists it when its last event is not later than now. */
  lemma QuietGetsListed(p: System, id: string) returns (start: Move, k: nat)
    requires id in p.store.t.threads && p.store.t.threads[id].status == Open
    requires p.store.t.threads[id].interpretedSeq < p.store.t.threads[id].eventSeq
    requires p.store.t.threads[id].lastEventAt <= p.store.now
    ensures start.StartScan? && start.rid !in p.scans && May(p, start)
    ensures var q, rid := After(p, start), start.rid;
      && rid in q.scans && q == p.(scans := p.scans[rid := q.scans[rid]])
      && q.scans[rid].phase.Idle? && q.scans[rid].channelId == p.store.t.threads[id].channelId
      && k < |q.scans[rid].due| && q.scans[rid].due[k].id == id
  {
    var t, row := p.store.t, p.store.t.threads[id];
    var due := DueSet(t, row.channelId, 0, p.store.now);
    var order := DueOrder(t, due);
    assert id in due;
    var rid := FreshString(p.scans.Keys);
    start := StartScan(rid, row.channelId, 0, order);
    k :| 0 <= k < |order| && order[k] == id;
  }
}
