/**
  * The cascading delete of a channel, apps/control-plane/src/channel-registry.ts:344-370, as the
  * SQL statements it runs in one transaction, under the foreign keys of apps/control-plane/src/db.ts.
  */
module ChannelPurge {
  import opened Wrappers
  import opened Schema
  import opened TaskStore
  import opened TaskRuns

  /** Every REFERENCES clause of the schema holds. */
  predicate ForeignKeysOk(t: Tables) {
    && (forall id <- t.tasks :: t.tasks[id].channelId in t.channels && t.tasks[id].payloadRef in t.payloads)
    && (forall id <- t.threads :: t.threads[id].channelId in t.channels)
    && t.taskEvents.Keys <= t.tasks.Keys
    && t.threadEvents.Keys <= t.threads.Keys
  }

  datatype Statement =
    | DeleteTaskEvents(channelId: string)
    | DeleteTasks(channelId: string)
    | DeletePayload(ref: string)
    | DeleteThreadEvents(channelId: string)
    | DeleteThreads(channelId: string)
    | DeleteChannel(channelId: string)

  function TasksOf(t: Tables, channelId: string): set<string> {
    set id <- t.tasks | t.tasks[id].channelId == channelId
  }

  function ThreadsOf(t: Tables, channelId: string): set<string> {
    set id <- t.threads | t.threads[id].channelId == channelId
  }

  function PayloadRefsOf(t: Tables, channelId: string): set<string> {
    set id <- t.tasks | t.tasks[id].channelId == channelId :: t.tasks[id].payloadRef
  }

  function Delete(t: Tables, s: Statement): Tables {
    match s
    case DeleteTaskEvents(channelId) => t.(taskEvents := t.taskEvents - TasksOf(t, channelId))
    case DeleteTasks(channelId) => t.(tasks := t.tasks - TasksOf(t, channelId))
    case DeletePayload(ref) => t.(payloads := t.payloads - {ref})
    case DeleteThreadEvents(channelId) => t.(threadEvents := t.threadEvents - ThreadsOf(t, channelId))
    case DeleteThreads(channelId) => t.(threads := t.threads - ThreadsOf(t, channelId))
    case DeleteChannel(channelId) => t.(channels := t.channels - {channelId})
  }

  /** A statement that would break a foreign key throws, and the transaction is rolled back. */
  function Execute(t: Tables, plan: seq<Statement>): Option<Tables> {
    if plan == [] then Some(t)
    else
      match Execute(t, plan[..|plan| - 1])
      case None => None
      case Some(u) =>
        var v := Delete(u, plan[|plan| - 1]);
        if ForeignKeysOk(v) then Some(v) else None
  }

  function PayloadDeletes(refs: seq<string>): (plan: seq<Statement>)
    ensures |plan| == |refs| && forall i :: 0 <= i < |refs| ==> plan[i] == DeletePayload(refs[i])
  {
    seq(|refs|, i requires 0 <= i < |refs| => DeletePayload(refs[i]))
  }

  function TaskPlan(channelId: string, refs: seq<string>): seq<Statement> {
    [DeleteTaskEvents(channelId), DeleteTasks(channelId)] + PayloadDeletes(refs)
  }

  function PurgePlan(channelId: string, refs: seq<string>): seq<Statement> {
    TaskPlan(channelId, refs) + [DeleteThreadEvents(channelId), DeleteThreads(channelId), DeleteChannel(channelId)]
  }

  /** What a purge is for: the channel and everything that belongs to it gone, all else as it was. */
  function Purged(t: Tables, channelId: string): Tables {
    Tables(t.channels - {channelId}, t.payloads - PayloadRefsOf(t, channelId),
           t.tasks - TasksOf(t, channelId), t.taskEvents - TasksOf(t, channelId),
           t.threads - ThreadsOf(t, channelId), t.threadEvents - ThreadsOf(t, channelId))
  }

  /** A task of another channel refers to one of these payloads. */
  predicate UsedElsewhere(t: Tables, channelId: string, refs: set<string>) {
    exists id <- t.tasks :: t.tasks[id].channelId != channelId && t.tasks[id].payloadRef in refs
  }

  predicate SharesPayloads(t: Tables, channelId: string) {
    UsedElsewhere(t, channelId, PayloadRefsOf(t, channelId))
  }

  // ----- The plan runs through, and does what a purge is for -----

  lemma ExecuteSnoc(t: Tables, plan: seq<Statement>, s: Statement)
    ensures Execute(t, plan + [s]) ==
      match Execute(t, plan)
      case None => None
      case Some(u) => if ForeignKeysOk(Delete(u, s)) then Some(Delete(u, s)) else None
  {
    assert (plan + [s])[..|plan|] == plan;
  }

  /** The tables once the tasks and their events are gone, and the payloads in `refs` too. */
  function WithoutTasks(t: Tables, channelId: string, refs: set<string>): Tables {
    t.(tasks := t.tasks - TasksOf(t, channelId), taskEvents := t.taskEvents - TasksOf(t, channelId),
       payloads := t.payloads - refs)
  }

  lemma TaskDeletes(t: Tables, channelId: string)
    requires ForeignKeysOk(t)
    ensures Execute(t, TaskPlan(channelId, [])) == Some(WithoutTasks(t, channelId, {}))
  {
    var a, b := DeleteTaskEvents(channelId), DeleteTasks(channelId);
    assert [] + [a] == [a] && [a] + [b] == TaskPlan(channelId, []);
    ExecuteSnoc(t, [], a);
    ExecuteSnoc(t, [a], b);
    assert t.payloads - {} == t.payloads;
  }

  lemma TaskPlanSnoc(channelId: string, refs: seq<string>, ref: string)
    ensures TaskPlan(channelId, refs + [ref]) == TaskPlan(channelId, refs) + [DeletePayload(ref)]
  {}

  lemma {:induction false} PayloadDeletesRun(t: Tables, channelId: string, refs: seq<string>)
    requires ForeignKeysOk(t)
    ensures Execute(t, TaskPlan(channelId, refs)) ==
            if UsedElsewhere(t, channelId, SetOf(refs)) then None else Some(WithoutTasks(t, channelId, SetOf(refs)))
    decreases |refs|
  {
    if refs == [] {
      TaskDeletes(t, channelId);
      assert SetOf(refs) == {};
    } else {
      var before, ref := refs[..|refs| - 1], refs[|refs| - 1];
      PayloadDeletesRun(t, channelId, before);
      assert refs == before + [ref] && SetOf(refs) == SetOf(before) + {ref};
      TaskPlanSnoc(channelId, before, ref);
      ExecuteSnoc(t, TaskPlan(channelId, before), DeletePayload(ref));
      if !UsedElsewhere(t, channelId, SetOf(before)) {
        PayloadDeleted(t, channelId, SetOf(before), ref);
      }
    }
  }

  lemma PayloadDeleted(t: Tables, channelId: string, refs: set<string>, ref: string)
    requires ForeignKeysOk(t)
    requires !UsedElsewhere(t, channelId, refs)
    ensures Delete(WithoutTasks(t, channelId, refs), DeletePayload(ref)) == WithoutTasks(t, channelId, refs + {ref})
    ensures ForeignKeysOk(WithoutTasks(t, channelId, refs + {ref}))
      <==> !UsedElsewhere(t, channelId, refs + {ref})
  {
    var u := WithoutTasks(t, channelId, refs + {ref});
    assert t.payloads - refs - {ref} == u.payloads;
    assert forall id <- t.tasks :: id in u.tasks <==> t.tasks[id].channelId != channelId;
  }

  lemma ThreadDeletes(t: Tables, channelId: string)
    requires ForeignKeysOk(t) && !SharesPayloads(t, channelId)
    ensures var u := WithoutTasks(t, channelId, PayloadRefsOf(t, channelId));
      var v := Delete(u, DeleteThreadEvents(channelId));
      var w := Delete(v, DeleteThreads(channelId));
      && ForeignKeysOk(v) && ForeignKeysOk(w)
      && Delete(w, DeleteChannel(channelId)) == Purged(t, channelId) && ForeignKeysOk(Purged(t, channelId))
  {}

  /**
    * The statements run through, every foreign key valid after each, exactly when no task of
    * another channel shares a payload with this one's; and then they do what a purge is for.
    */
  lemma PurgeRuns(t: Tables, channelId: string, refs: seq<string>)
    requires ForeignKeysOk(t) && SetOf(refs) == PayloadRefsOf(t, channelId)
    ensures Execute(t, PurgePlan(channelId, refs)) ==
            if SharesPayloads(t, channelId) then None else Some(Purged(t, channelId))
  {
    var head := TaskPlan(channelId, refs);
    PayloadDeletesRun(t, channelId, refs);
    var a, b, c := DeleteThreadEvents(channelId), DeleteThreads(channelId), DeleteChannel(channelId);
    ExecuteSnoc(t, head, a);
    ExecuteSnoc(t, head + [a], b);
    ExecuteSnoc(t, head + [a] + [b], c);
    assert PurgePlan(channelId, refs) == head + [a] + [b] + [c];
    if !SharesPayloads(t, channelId) {
      ThreadDeletes(t, channelId);
    }
  }

  /** Nothing of the channel is left in any table. */
  lemma PurgeLeavesNothing(t: Tables, channelId: string)
    requires ForeignKeysOk(t)
    ensures var u := Purged(t, channelId);
      && channelId !in u.channels
      && (forall id <- u.tasks :: u.tasks[id].channelId != channelId)
      && (forall id <- u.threads :: u.threads[id].channelId != channelId)
      && u.taskEvents.Keys <= u.tasks.Keys && u.threadEvents.Keys <= u.threads.Keys
      && (forall id <- t.tasks :: t.tasks[id].channelId == channelId ==> t.tasks[id].payloadRef !in u.payloads)
  {}

  /** What belongs to the other channels is unchanged. */
  lemma PurgeKeepsTheRest(t: Tables, channelId: string)
    requires ForeignKeysOk(t) && !SharesPayloads(t, channelId)
    ensures var u := Purged(t, channelId);
      && (forall id <- t.channels :: id != channelId ==> id in u.channels && u.channels[id] == t.channels[id])
      && (forall id <- t.tasks :: t.tasks[id].channelId != channelId ==>
            && id in u.tasks && u.tasks[id] == t.tasks[id] && LogOf(u, id) == LogOf(t, id)
            && u.tasks[id].payloadRef in u.payloads
            && u.payloads[u.tasks[id].payloadRef] == t.payloads[t.tasks[id].payloadRef])
      && (forall id <- t.threads :: t.threads[id].channelId != channelId ==>
            id in u.threads && u.threads[id] == t.threads[id] && ThreadEventsOf(u, id) == ThreadEventsOf(t, id))
      && (forall ref <- t.payloads :: (forall id <- t.tasks :: t.tasks[id].payloadRef != ref) ==>
            ref in u.payloads && u.payloads[ref] == t.payloads[ref])
  {}

  lemma PurgedIsWhole(t: Tables, channelId: string)
    requires ForeignKeysOk(t) && !SharesPayloads(t, channelId)
    ensures ForeignKeysOk(Purged(t, channelId))
  {
    ThreadDeletes(t, channelId);
  }

  /** The counts a purge returns are what the tables have lost. */
  lemma PurgeCounts(t: Tables, channelId: string)
    ensures |TasksOf(t, channelId)| == |t.tasks| - |Purged(t, channelId).tasks|
    ensures |ThreadsOf(t, channelId)| == |t.threads| - |Purged(t, channelId).threads|
  {
    MinusSize(t.tasks, TasksOf(t, channelId));
    MinusSize(t.threads, ThreadsOf(t, channelId));
  }

  lemma MinusSize<V>(rows: map<string, V>, ids: set<string>)
    requires ids <= rows.Keys
    ensures |rows - ids| == |rows| - |ids|
  {
    assert (rows - ids).Keys == rows.Keys - ids;
    assert |rows| == |rows.Keys| && |rows - ids| == |(rows - ids).Keys|;
  }

  // ----- In reachable databases -----

  /** The store's steps keep every foreign key. */
  lemma StepsKeepForeignKeys(s: State, step: Step)
    requires ForeignKeysOk(s.t) && Enabled(s, step)
    ensures ForeignKeysOk(Apply(s, step).t)
  {
    if step.CreateStep? {
      CreateKeepsForeignKeys(s.t, step.id, step.ref, step.channelId, step.labelName, step.payload, step.agent,
                             step.threadId, s.now);
    }
  }

  lemma CreateKeepsForeignKeys(t: Tables, id: string, ref: string, channelId: string, labelName: string,
                               payload: string, agent: Option<string>, threadId: Option<string>, now: int)
    requires ForeignKeysOk(t)
    ensures ForeignKeysOk(Create(t, id, ref, channelId, labelName, payload, agent, threadId, now).tables)
  {}

  /** Rows agree with their logs, each task has its own payload, and every foreign key holds. */
  ghost predicate Whole(t: Tables) {
    Consistent(t) && ForeignKeysOk(t)
  }

  /**
    * With a payload per task nothing is shared: no purge of a reachable database ever fails,
    * and it leaves a database in which everything proved of runs still holds.
    */
  lemma {:induction false} ReachablePurgeRuns(s: State, steps: seq<Step>, channelId: string, refs: seq<string>)
    requires Whole(s.t) && Run(s, steps)
    requires SetOf(refs) == PayloadRefsOf(Exec(s, steps).t, channelId)
    ensures var t := Exec(s, steps).t;
      && Whole(t) && Execute(t, PurgePlan(channelId, refs)) == Some(Purged(t, channelId))
      && Whole(Purged(t, channelId))
  {
    RunKeepsConsistent(s, steps);
    RunKeepsForeignKeys(s, steps);
    WholePurgeRuns(Exec(s, steps).t, channelId, refs);
  }

  lemma WholePurgeRuns(t: Tables, channelId: string, refs: seq<string>)
    requires Whole(t) && SetOf(refs) == PayloadRefsOf(t, channelId)
    ensures Execute(t, PurgePlan(channelId, refs)) == Some(Purged(t, channelId)) && Whole(Purged(t, channelId))
  {
    assert !SharesPayloads(t, channelId);
    PurgeRuns(t, channelId, refs);
    PurgeKeepsConsistent(t, channelId);
  }

  lemma {:induction false} RunKeepsForeignKeys(s: State, steps: seq<Step>)
    requires ForeignKeysOk(s.t) && Run(s, steps)
    ensures ForeignKeysOk(Exec(s, steps).t)
    decreases |steps|
  {
    if steps != [] {
      RunKeepsForeignKeys(s, steps[..|steps| - 1]);
      StepsKeepForeignKeys(Exec(s, steps[..|steps| - 1]), steps[|steps| - 1]);
    }
  }

  lemma PurgeKeepsConsistent(t: Tables, channelId: string)
    requires Consistent(t)
    ensures Consistent(Purged(t, channelId))
  {
    var u := Purged(t, channelId);
    assert AuditOk(u);
    assert PayloadsOk(u);
  }

  /** Every thread a task names exists; no foreign key asks for this. */
  predicate ThreadsResolve(t: Tables) {
    forall id <- t.tasks :: t.tasks[id].threadId.Some? ==> t.tasks[id].threadId.value in t.threads
  }

  /** A purge leaves such references whole exactly when no other channel's task names a thread of this one. */
  lemma PurgeLeavesThreadsResolved(t: Tables, channelId: string)
    requires ThreadsResolve(t)
    ensures ThreadsResolve(Purged(t, channelId)) <==>
      forall id <- t.tasks :: t.tasks[id].channelId != channelId && t.tasks[id].threadId.Some? ==>
        t.threads[t.tasks[id].threadId.value].channelId != channelId
  {
    var u := Purged(t, channelId);
    if ThreadsResolve(u) {
      forall id <- t.tasks | t.tasks[id].channelId != channelId && t.tasks[id].threadId.Some?
        ensures t.threads[t.tasks[id].threadId.value].channelId != channelId
      {
        assert id in u.tasks;
      }
    }
  }
}
