/** Heartbeats of a worker whose task waits for a person: apps/worker/src/index.ts. */
module Heartbeat {
  import opened Wrappers
  import opened TaskDomain
  import opened TaskStore
  import opened TaskRuns

  /** A third of the lease, but never less than five seconds. */
  function Period(leaseSeconds: nat): nat {
    var third := 1000 * leaseSeconds / 3;
    if third < 5000 then 5000 else third
  }

  lemma PeriodFitsThreeTimes(leaseSeconds: nat)
    ensures 3 * Period(leaseSeconds) <= 1000 * leaseSeconds <==> leaseSeconds >= 15
  {
    var third := 1000 * leaseSeconds / 3;
    assert 3 * third <= 1000 * leaseSeconds;
  }

  /** The period is a third of the lease in whole milliseconds, or five seconds if that is less. */
  lemma PeriodTells(leaseSeconds: nat)
    ensures leaseSeconds < 15 ==> Period(leaseSeconds) == 5000
    ensures leaseSeconds >= 15 ==> 3 * Period(leaseSeconds) <= 1000 * leaseSeconds < 3 * (Period(leaseSeconds) + 1)
  {
    var third := 1000 * leaseSeconds / 3;
    assert 3 * third <= 1000 * leaseSeconds < 3 * (third + 1);
  }

  /** The worker, the waiting task it lists, and its lease length. */
  datatype Watch = Watch(id: string, workerId: string, leaseSeconds: nat)

  /** The store, when the next heartbeat is due, and how many were lost in a row. */
  datatype System = System(store: State, nextBeat: int, lost: nat)

  datatype Move = Beat(ids: seq<string>, delivered: bool) | Other(step: Step)

  /**
    * Heartbeats come on time and at most two in a row are lost. Anything else may happen to the
    * store, save what ends the waiting on purpose: a report on the task, its abandonment,
    * or a restart of its worker.
    */
  ghost predicate May(w: Watch, h: System, move: Move) {
    match move
    case Beat(ids, delivered) => h.store.now == h.nextBeat && w.id in ids && (delivered || h.lost < 2)
    case Other(step) =>
      && Enabled(h.store, step)
      && (step.TickStep? ==> h.store.now + step.ms <= h.nextBeat)
      && !(step.ReportStep? && step.id == w.id)
      && !(step.ResolveStep? && step.id == w.id)
      && !(step.RecoverStep? && step.workerId == w.workerId)
      && !(step.ExtendStep? && step.workerId == w.workerId)
  }

  ghost function After(w: Watch, h: System, move: Move): System
    requires May(w, h, move)
  {
    match move
    case Beat(ids, delivered) =>
      if delivered
      then System(Apply(h.store, ExtendStep(w.workerId, ids, w.leaseSeconds)), h.nextBeat + Period(w.leaseSeconds), 0)
      else System(h.store, h.nextBeat + Period(w.leaseSeconds), h.lost + 1)
    case Other(step) => h.(store := Apply(h.store, step))
  }

  /** A heartbeat, delivered or lost, is followed by the next one a period later; a delivered one extends the lease. */
  lemma BeatTells(w: Watch, h: System, ids: seq<string>, delivered: bool)
    requires h.store.now == h.nextBeat && w.id in ids && WaitsFor(w, h) && (delivered || h.lost < 2)
    ensures May(w, h, Beat(ids, delivered))
    ensures var q := After(w, h, Beat(ids, delivered));
      && q.nextBeat == h.nextBeat + Period(w.leaseSeconds) && q.store.now == h.store.now
      && q.lost == (if delivered then 0 else h.lost + 1)
      && w.id in q.store.t.tasks
      && q.store.t.tasks[w.id] ==
           if delivered then h.store.t.tasks[w.id].(lease := Some(h.store.now + 1000 * w.leaseSeconds))
           else h.store.t.tasks[w.id]
  {}

  /** Whatever concerns other tasks and other workers may happen in between, and time may pass up to the next beat. */
  lemma OthersGoOn(w: Watch, h: System, step: Step)
    requires Enabled(h.store, step)
    requires match step
             case ReportStep(id, _) => id != w.id
             case ResolveStep(id, _) => id != w.id
             case RecoverStep(workerId) => workerId != w.workerId
             case ExtendStep(workerId, _, _) => workerId != w.workerId
             case TickStep(ms) => h.store.now + ms <= h.nextBeat
             case _ => true
    ensures May(w, h, Other(step)) && After(w, h, Other(step)) == h.(store := Apply(h.store, step))
  {}

  ghost predicate Playable(w: Watch, h: System, moves: seq<Move>)
    decreases |moves|, 0
  {
    moves == [] ||
    (Playable(w, h, moves[..|moves| - 1]) && May(w, Play(w, h, moves[..|moves| - 1]), moves[|moves| - 1]))
  }

  ghost function Play(w: Watch, h: System, moves: seq<Move>): System
    requires Playable(w, h, moves)
    decreases |moves|, 1
  {
    if moves == [] then h else After(w, Play(w, h, moves[..|moves| - 1]), moves[|moves| - 1])
  }

  ghost predicate WaitsFor(w: Watch, h: System) {
    && w.id in h.store.t.tasks
    && h.store.t.tasks[w.id].status == Waiting && h.store.t.tasks[w.id].workerId == Some(w.workerId)
  }

  /** The moment a heartbeat has just extended the lease. */
  ghost predicate JustExtended(w: Watch, h: System) {
    && WaitsFor(w, h) && h.lost == 0
    && h.nextBeat == h.store.now + Period(w.leaseSeconds)
    && h.store.t.tasks[w.id].lease == Some(h.store.now + 1000 * w.leaseSeconds)
  }

  /** The lease covers the next heartbeat and all that may still be lost. */
  ghost predicate Covered(w: Watch, h: System) {
    && WaitsFor(w, h) && h.lost <= 2 && h.store.now <= h.nextBeat
    && h.store.t.tasks[w.id].lease.Some?
    && h.nextBeat + (2 - h.lost) * Period(w.leaseSeconds) <= h.store.t.tasks[w.id].lease.value
  }

  lemma MoveKeepsCovered(w: Watch, h: System, move: Move)
    requires w.leaseSeconds >= 15 && Covered(w, h) && May(w, h, move)
    ensures Covered(w, After(w, h, move))
  {
    PeriodFitsThreeTimes(w.leaseSeconds);
    if move.Other? {
      WaitingUntouched(w, h, move.step);
    } else if move.delivered {
      assert w.id in WaitingAmong(h.store.t, w.workerId, move.ids);
    }
  }

  lemma WaitingUntouched(w: Watch, h: System, step: Step)
    requires Covered(w, h) && May(w, h, Other(step))
    ensures w.id in Apply(h.store, step).t.tasks && Apply(h.store, step).t.tasks[w.id] == h.store.t.tasks[w.id]
    ensures Apply(h.store, step).now <= h.nextBeat
  {}

  lemma ExtensionCovers(w: Watch, h: System)
    requires w.leaseSeconds >= 15 && JustExtended(w, h)
    ensures Covered(w, h)
  {
    PeriodFitsThreeTimes(w.leaseSeconds);
  }

  lemma {:induction false} RunsStayCovered(w: Watch, h: System, moves: seq<Move>)
    requires w.leaseSeconds >= 15 && Covered(w, h) && Playable(w, h, moves)
    ensures Covered(w, Play(w, h, moves))
    decreases |moves|
  {
    if moves != [] {
      RunsStayCovered(w, h, moves[..|moves| - 1]);
      MoveKeepsCovered(w, Play(w, h, moves[..|moves| - 1]), moves[|moves| - 1]);
    }
  }

  /**
    * With a lease of at least fifteen seconds, a waiting task whose lease a heartbeat has
    * extended once keeps waiting, and no sweep finds its lease expired, while no three
    * heartbeats in a row are lost.
    */
  lemma WaitingIsNeverSwept(w: Watch, h: System, moves: seq<Move>)
    requires w.leaseSeconds >= 15 && JustExtended(w, h) && Playable(w, h, moves)
    ensures WaitsFor(w, Play(w, h, moves))
    ensures w.id !in ExpiredAt(Play(w, h, moves).store.t, Play(w, h, moves).store.now)
  {
    ExtensionCovers(w, h);
    RunsStayCovered(w, h, moves);
    CoveredIsNotExpired(w, Play(w, h, moves));
  }

  lemma CoveredIsNotExpired(w: Watch, h: System)
    requires Covered(w, h)
    ensures WaitsFor(w, h) && w.id !in ExpiredAt(h.store.t, h.store.now)
  {}

  lemma PlaySnoc(w: Watch, h: System, moves: seq<Move>, move: Move)
    requires Playable(w, h, moves) && May(w, Play(w, h, moves), move)
    ensures Playable(w, h, moves + [move])
    ensures Play(w, h, moves + [move]) == After(w, Play(w, h, moves), move)
  {
    assert (moves + [move])[..|moves|] == moves;
  }

  /** With a shorter lease two lost heartbeats are enough: the sweep just before the third finds the lease over. */
  lemma ShortLeaseIsSwept(w: Watch, h: System) returns (moves: seq<Move>)
    requires w.leaseSeconds < 15 && JustExtended(w, h)
    ensures Playable(w, h, moves) && w.id in Play(w, h, moves).store.t.tasks
    ensures Play(w, h, moves).store.t.tasks[w.id].status == Stalled
  {
    PeriodFitsThreeTimes(w.leaseSeconds);
    var wait, lost := Other(TickStep(Period(w.leaseSeconds))), Beat([w.id], false);
    moves := [];
    PlaySnoc(w, h, moves, wait);
    moves := moves + [wait];
    PlaySnoc(w, h, moves, lost);
    moves := moves + [lost];
    PlaySnoc(w, h, moves, wait);
    moves := moves + [wait];
    PlaySnoc(w, h, moves, lost);
    moves := moves + [lost];
    PlaySnoc(w, h, moves, wait);
    moves := moves + [wait];
    PlaySnoc(w, h, moves, Other(SweepStep));
    moves := moves + [Other(SweepStep)];
  }
}
