/** apps/control-plane/src/task-store.ts: each synchronous method is one atomic step on the tables. */
module TaskStore {
  import opened Wrappers
  import opened TaskDomain
  import opened Schema

  datatype StoreError =
    | TaskNotFound(id: string)
    | TaskNotPending(id: string, status: TaskStatus)
    | InvalidTransition(from: TaskStatus, to: TaskStatus)
    | ConstraintViolation

  datatype StalledAction = Retry | Abandon

  /** A step's new tables and what it returns or throws. */
  datatype Outcome = Outcome(tables: Tables, result: Result<TaskRow, StoreError>)

  // ----- What each method does to the tables -----

  /** Rewrites one row and appends its audit event. */
  function Record(t: Tables, id: string, row: TaskRow, kind: EventKind): Tables {
    t.(tasks := t.tasks[id := row], taskEvents := t.taskEvents[id := LogOf(t, id) + [kind]])
  }

  /** A row's next content and the audit event that records the change. */
  datatype RowChange = RowChange(row: TaskRow, kind: EventKind)

  /** Looks the row up and applies the move it allows, or throws. */
  function Moved(t: Tables, id: string, move: Result<RowChange, StoreError>): Outcome {
    match move
    case Ok(m) => Outcome(Record(t, id, m.row, m.kind), Ok(m.row))
    case Err(e) => Outcome(t, Err(e))
  }

  /** The audit event leaves an empty agent name out, the row keeps it. */
  function Logged(agent: Option<string>): Option<string> {
    if agent == Some("") then None else agent
  }

  function Create(t: Tables, id: string, ref: string, channelId: string, labelName: string, payload: string,
                  agent: Option<string>, threadId: Option<string>, now: int): Outcome
  {
    if ref in t.payloads then Outcome(t, Err(ConstraintViolation))
    else
      var stored := t.(payloads := t.payloads[ref := payload]);
      if id in t.tasks || channelId !in t.channels then Outcome(stored, Err(ConstraintViolation))
      else
        var row := TaskRow(channelId, labelName, ref, Pending, agent, threadId, None, None, now);
        Outcome(Record(stored, id, row, CreatedEvent(channelId, labelName, Logged(agent), threadId)), Ok(row))
  }

  predicate Claimable(t: Tables, labels: seq<string>, id: string) {
    id in t.tasks && t.tasks[id].status == Pending && t.tasks[id].labelName in labels
  }

  /** One of the first rows of `ORDER BY created_at`: ties may come in any order. */
  predicate Oldest(t: Tables, labels: seq<string>, id: string) {
    && Claimable(t, labels, id)
    && forall other <- t.tasks :: Claimable(t, labels, other) ==> t.tasks[id].createdAt <= t.tasks[other].createdAt
  }

  function ClaimMove(row: TaskRow, workerId: string, leaseSeconds: nat, now: int): RowChange {
    var lease := now + 1000 * leaseSeconds;
    RowChange(row.(status := Claimed, workerId := Some(workerId), lease := Some(lease)), ClaimedEvent(workerId, lease))
  }

  function Claim(t: Tables, id: string, workerId: string, leaseSeconds: nat, now: int): Tables
    requires id in t.tasks
  {
    var m := ClaimMove(t.tasks[id], workerId, leaseSeconds, now);
    Record(t, id, m.row, m.kind)
  }

  function ReportMove(row: TaskRow, report: TaskReport): Result<RowChange, StoreError> {
    var target := ReportTarget(report);
    if !CanTransition(row.status, target) then Err(InvalidTransition(row.status, target))
    else Ok(RowChange(row.(status := target), ReportedEvent(report)))
  }

  function Report(t: Tables, id: string, report: TaskReport): Outcome {
    Moved(t, id, if id in t.tasks then ReportMove(t.tasks[id], report) else Err(TaskNotFound(id)))
  }

  function SetAgentMove(id: string, row: TaskRow, agent: string): Result<RowChange, StoreError> {
    if row.status != Pending then Err(TaskNotPending(id, row.status))
    else Ok(RowChange(row.(agent := Some(agent)), AgentAssignedEvent(agent)))
  }

  function SetAgent(t: Tables, id: string, agent: string): Outcome {
    Moved(t, id, if id in t.tasks then SetAgentMove(id, t.tasks[id], agent) else Err(TaskNotFound(id)))
  }

  function ResolveMove(row: TaskRow, action: StalledAction): Result<RowChange, StoreError> {
    var target := if action == Retry then Pending else Failed;
    if !CanTransition(row.status, target) then Err(InvalidTransition(row.status, target))
    else Ok(RowChange(row.(status := target, workerId := None, lease := None),
                 if action == Retry then RetriedEvent else AbandonedEvent))
  }

  function Resolve(t: Tables, id: string, action: StalledAction): Outcome {
    Moved(t, id, if id in t.tasks then ResolveMove(t.tasks[id], action) else Err(TaskNotFound(id)))
  }

  /** The rows a restarted worker still holds. */
  function HeldBy(t: Tables, workerId: string): set<string> {
    set id <- t.tasks | t.tasks[id].workerId == Some(workerId) && InFlight(t.tasks[id].status)
  }

  /** The rows whose lease has run out; a NULL lease compares false. */
  function ExpiredAt(t: Tables, now: int): set<string> {
    set id <- t.tasks | InFlight(t.tasks[id].status) && t.tasks[id].lease.Some? && t.tasks[id].lease.value < now
  }

  function StalledRows(t: Tables, ids: set<string>): map<string, TaskRow> {
    map id <- t.tasks :: if id in ids then t.tasks[id].(status := Stalled) else t.tasks[id]
  }

  function StalledLogs(t: Tables, ids: set<string>, workerRestarted: bool): map<string, seq<EventKind>>
    requires ids <= t.tasks.Keys
  {
    map id <- t.taskEvents.Keys + ids ::
      if id in ids then LogOf(t, id) + [StalledEvent(t.tasks[id].status, workerRestarted)] else t.taskEvents[id]
  }

  /** Stalls the listed rows, without asking the transition table. */
  function StallAll(t: Tables, ids: set<string>, workerRestarted: bool): Tables
    requires ids <= t.tasks.Keys
  {
    t.(tasks := StalledRows(t, ids), taskEvents := StalledLogs(t, ids, workerRestarted))
  }

  /** How a row and its log look once the row has been stalled, given what they were. */
  predicate NowStalled(t: Tables, u: Tables, id: string, workerRestarted: bool) {
    && id in t.tasks && id in u.tasks && u.tasks[id] == t.tasks[id].(status := Stalled)
    && LogOf(u, id) == LogOf(t, id) + [StalledEvent(t.tasks[id].status, workerRestarted)]
  }

  predicate SameTask(t: Tables, u: Tables, id: string) {
    && id in t.tasks && id in u.tasks && u.tasks[id] == t.tasks[id] && LogOf(u, id) == LogOf(t, id)
  }

  lemma StallOneMore(t: Tables, done: set<string>, id: string, workerRestarted: bool)
    requires done + {id} <= t.tasks.Keys && id !in done
    ensures var rows, logs := StalledRows(t, done), StalledLogs(t, done, workerRestarted);
      && rows[id] == t.tasks[id]
      && StalledRows(t, done + {id}) == rows[id := t.tasks[id].(status := Stalled)]
      && (if id in logs then logs[id] else []) == LogOf(t, id)
      && StalledLogs(t, done + {id}, workerRestarted)
         == logs[id := LogOf(t, id) + [StalledEvent(t.tasks[id].status, workerRestarted)]]
  {}

  lemma RowsStall(t: Tables, ids: set<string>, workerRestarted: bool)
    requires ids <= t.tasks.Keys
    ensures forall id <- t.tasks ::
      if id in ids then NowStalled(t, StallAll(t, ids, workerRestarted), id, workerRestarted)
      else SameTask(t, StallAll(t, ids, workerRestarted), id)
    ensures StallAll(t, ids, workerRestarted).tasks.Keys == t.tasks.Keys
  {}

  lemma HeldRowsStall(t: Tables, workerId: string)
    ensures var u := StallAll(t, HeldBy(t, workerId), true);
      && (forall id :: id in HeldBy(t, workerId) <==>
            && id in t.tasks && t.tasks[id].workerId == Some(workerId)
            && t.tasks[id].status in {Claimed, Running, Waiting})
      && (forall id <- u.tasks :: u.tasks[id].workerId == Some(workerId) ==>
            u.tasks[id].status !in {Claimed, Running, Waiting})
      && (forall id <- t.tasks ::
            if id in HeldBy(t, workerId) then NowStalled(t, u, id, true) else SameTask(t, u, id))
  {
    RowsStall(t, HeldBy(t, workerId), true);
  }

  lemma ExpiredRowsStall(t: Tables, now: int)
    ensures var u := StallAll(t, ExpiredAt(t, now), false);
      && ExpiredAt(t, now) == (set id <- t.tasks | t.tasks[id].status in {Claimed, Running, Waiting}
                                                   && t.tasks[id].lease.Some? && t.tasks[id].lease.value < now)
      && (forall id <- t.tasks ::
            if id in ExpiredAt(t, now) then NowStalled(t, u, id, false) else SameTask(t, u, id))
  {
    RowsStall(t, ExpiredAt(t, now), false);
  }

  /** The listed rows of this worker that wait for a person. */
  function WaitingAmong(t: Tables, workerId: string, ids: seq<string>): set<string> {
    set id <- t.tasks | t.tasks[id].workerId == Some(workerId) && t.tasks[id].status == Waiting && id in ids
  }

  function Extend(t: Tables, rows: set<string>, until: int): Tables {
    t.(tasks := map id <- t.tasks :: if id in rows then t.tasks[id].(lease := Some(until)) else t.tasks[id])
  }

  /** While something is claimable there is an oldest one. */
  lemma {:induction false} OldestExists(t: Tables, labels: seq<string>, candidates: set<string>)
    requires candidates == set id <- t.tasks | Claimable(t, labels, id)
    requires candidates != {}
    ensures exists id <- candidates :: Oldest(t, labels, id)
  {
    var id := OldestOf(t, candidates);
    assert Oldest(t, labels, id);
  }

  lemma {:induction false} OldestOf(t: Tables, ids: set<string>) returns (id: string)
    requires ids <= t.tasks.Keys && ids != {}
    ensures id in ids && forall other <- ids :: t.tasks[id].createdAt <= t.tasks[other].createdAt
    decreases ids
  {
    id :| id in ids;
    if ids != {id} {
      var rest := OldestOf(t, ids - {id});
      id := if t.tasks[rest].createdAt < t.tasks[id].createdAt then rest else id;
    }
  }

  class TaskStore {
    const db: Database

    constructor (db: Database)
      ensures this.db == db
    {
      this.db := db;
    }

    method AppendEvent(id: string, kind: EventKind)
      modifies db`taskEvents
      ensures db.taskEvents == old(db.taskEvents)[id := LogOf(old(db.Snapshot()), id) + [kind]]
    {
      db.taskEvents := db.taskEvents[id := LogOf(db.Snapshot(), id) + [kind]];
    }

    /** `id` and `ref` are the two random UUIDs the call draws. */
    method CreateTask(id: string, ref: string, channelId: string, labelName: string, payload: string,
                      agent: Option<string>, threadId: Option<string>, now: int)
      returns (r: Result<TaskRow, StoreError>)
      modifies db
      ensures Outcome(db.Snapshot(), r)
           == Create(old(db.Snapshot()), id, ref, channelId, labelName, payload, agent, threadId, now)
    {
      if ref in db.payloads {
        return Err(ConstraintViolation);
      }
      db.payloads := db.payloads[ref := payload];
      if id in db.tasks || channelId !in db.channels {
        return Err(ConstraintViolation);
      }
      db.tasks := db.tasks[id := TaskRow(channelId, labelName, ref, Pending, agent, threadId, None, None, now)];
      AppendEvent(id, CreatedEvent(channelId, labelName, Logged(agent), threadId));
      r := Ok(db.tasks[id]);
    }

    method ClaimNext(workerId: string, labels: seq<string>, leaseSeconds: nat, now: int)
      returns (claimed: Option<string>)
      modifies db
      ensures claimed.None? ==> db.Snapshot() == old(db.Snapshot())
      ensures claimed.None? <==> forall id <- old(db.tasks) :: !Claimable(old(db.Snapshot()), labels, id)
      ensures claimed.Some? ==>
        && Oldest(old(db.Snapshot()), labels, claimed.value)
        && db.Snapshot() == Claim(old(db.Snapshot()), claimed.value, workerId, leaseSeconds, now)
    {
      var t := db.Snapshot();
      var candidates := set id <- db.tasks | Claimable(t, labels, id);
      if candidates == {} {
        assert forall id <- t.tasks :: Claimable(t, labels, id) ==> id in candidates;
        return None;
      }
      OldestExists(t, labels, candidates);
      var id :| id in candidates && Oldest(t, labels, id);
      assert CanTransition(db.tasks[id].status, Claimed);
      var lease := now + 1000 * leaseSeconds;
      db.tasks := db.tasks[id := db.tasks[id].(status := Claimed, workerId := Some(workerId), lease := Some(lease))];
      AppendEvent(id, ClaimedEvent(workerId, lease));
      claimed := Some(id);
    }

    method ApplyReport(id: string, report: TaskReport) returns (r: Result<TaskRow, StoreError>)
      modifies db
      ensures Outcome(db.Snapshot(), r) == Report(old(db.Snapshot()), id, report)
    {
      if id !in db.tasks {
        return Err(TaskNotFound(id));
      }
      var status, target := db.tasks[id].status, ReportTarget(report);
      if !CanTransition(status, target) {
        return Err(InvalidTransition(status, target));
      }
      db.tasks := db.tasks[id := db.tasks[id].(status := target)];
      AppendEvent(id, ReportedEvent(report));
      r := Ok(db.tasks[id]);
    }

    method AssignAgent(id: string, agent: string) returns (r: Result<TaskRow, StoreError>)
      modifies db
      ensures Outcome(db.Snapshot(), r) == SetAgent(old(db.Snapshot()), id, agent)
    {
      if id !in db.tasks {
        return Err(TaskNotFound(id));
      }
      if db.tasks[id].status != Pending {
        return Err(TaskNotPending(id, db.tasks[id].status));
      }
      db.tasks := db.tasks[id := db.tasks[id].(agent := Some(agent))];
      AppendEvent(id, AgentAssignedEvent(agent));
      r := Ok(db.tasks[id]);
    }

    method ResolveStalled(id: string, action: StalledAction) returns (r: Result<TaskRow, StoreError>)
      modifies db
      ensures Outcome(db.Snapshot(), r) == Resolve(old(db.Snapshot()), id, action)
    {
      if id !in db.tasks {
        return Err(TaskNotFound(id));
      }
      var status, target := db.tasks[id].status, if action == Retry then Pending else Failed;
      if !CanTransition(status, target) {
        return Err(InvalidTransition(status, target));
      }
      db.tasks := db.tasks[id := db.tasks[id].(status := target, workerId := None, lease := None)];
      AppendEvent(id, if action == Retry then RetriedEvent else AbandonedEvent);
      r := Ok(db.tasks[id]);
    }

    /** The loop shared by recovery and the lease sweep, over the rows a query returned. */
    method StallRows(rows: seq<string>, workerRestarted: bool)
      requires Enumerates(rows, SetOf(rows)) && forall id <- rows :: id in db.tasks
      modifies db
      ensures db.Snapshot() == StallAll(old(db.Snapshot()), SetOf(rows), workerRestarted)
    {
      ghost var t := db.Snapshot();
      for i := 0 to |rows|
        invariant db.Snapshot() == t.(tasks := db.tasks, taskEvents := db.taskEvents)
        invariant db.tasks == StalledRows(t, SetOf(rows[..i]))
        invariant db.taskEvents == StalledLogs(t, SetOf(rows[..i]), workerRestarted)
      {
        ghost var done := SetOf(rows[..i]);
        var id := rows[i];
        assert SetOf(rows[..i + 1]) == done + {id};
        StallOneMore(t, done, id, workerRestarted);
        var from := db.tasks[id].status;
        db.tasks := db.tasks[id := db.tasks[id].(status := Stalled)];
        AppendEvent(id, StalledEvent(from, workerRestarted));
      }
      assert rows[..|rows|] == rows;
    }

    method RecoverWorkerTasks(workerId: string) returns (ids: seq<string>)
      modifies db
      ensures Enumerates(ids, HeldBy(old(db.Snapshot()), workerId))
      ensures db.Snapshot() == StallAll(old(db.Snapshot()), HeldBy(old(db.Snapshot()), workerId), true)
      ensures forall id :: id in ids <==>
        && id in old(db.tasks) && old(db.tasks)[id].workerId == Some(workerId)
        && old(db.tasks)[id].status in {Claimed, Running, Waiting}
      ensures forall id <- db.tasks :: db.tasks[id].workerId == Some(workerId) ==>
        db.tasks[id].status !in {Claimed, Running, Waiting}
      ensures forall id <- old(db.tasks) ::
        if id in ids then NowStalled(old(db.Snapshot()), db.Snapshot(), id, true)
        else SameTask(old(db.Snapshot()), db.Snapshot(), id)
    {
      ghost var t, held := db.Snapshot(), HeldBy(db.Snapshot(), workerId);
      ids := Enumerate(HeldBy(db.Snapshot(), workerId));
      assert held == SetOf(ids);
      StallRows(ids, true);
      HeldRowsStall(t, workerId);
    }

    method SweepExpiredLeases(now: int) returns (n: nat)
      modifies db
      ensures n == |set id <- old(db.tasks) | old(db.tasks)[id].status in {Claimed, Running, Waiting}
                                              && old(db.tasks)[id].lease.Some? && old(db.tasks)[id].lease.value < now|
      ensures db.Snapshot() == StallAll(old(db.Snapshot()), ExpiredAt(old(db.Snapshot()), now), false)
      ensures forall id <- old(db.tasks) ::
        var row := old(db.tasks)[id];
        if row.status in {Claimed, Running, Waiting} && row.lease.Some? && row.lease.value < now
        then NowStalled(old(db.Snapshot()), db.Snapshot(), id, false)
        else SameTask(old(db.Snapshot()), db.Snapshot(), id)
    {
      ghost var t := db.Snapshot();
      var expired := ExpiredAt(db.Snapshot(), now);
      var rows := Enumerate(expired);
      assert expired == SetOf(rows);
      StallRows(rows, false);
      n := |rows|;
      ExpiredRowsStall(t, now);
    }

    method ExtendWaitingLeases(workerId: string, taskIds: seq<string>, leaseSeconds: nat, now: int)
      returns (extended: seq<string>)
      modifies db
      ensures Enumerates(extended, WaitingAmong(old(db.Snapshot()), workerId, taskIds))
      ensures db.Snapshot() == Extend(old(db.Snapshot()), WaitingAmong(old(db.Snapshot()), workerId, taskIds),
                                      now + 1000 * leaseSeconds)
      ensures forall id :: id in extended <==>
        && id in taskIds && id in old(db.tasks)
        && old(db.tasks)[id].workerId == Some(workerId) && old(db.tasks)[id].status == Waiting
      ensures forall id <- old(db.tasks) ::
        && id in db.tasks
        && db.tasks[id] == old(db.tasks)[id].(lease := if id in extended then Some(now + 1000 * leaseSeconds)
                                                       else old(db.tasks)[id].lease)
    {
      var t := db.Snapshot();
      var rows := WaitingAmong(t, workerId, taskIds);
      var until := now + 1000 * leaseSeconds;
      extended := Enumerate(rows);
      for i := 0 to |extended|
        invariant db.Snapshot() == t.(tasks := db.tasks)
        invariant db.tasks == map id <- t.tasks :: if id in extended[..i] then t.tasks[id].(lease := Some(until))
                                                                        else t.tasks[id]
      {
        db.tasks := db.tasks[extended[i] := db.tasks[extended[i]].(lease := Some(until))];
      }
      assert extended[..|extended|] == extended;
    }
  }
}
