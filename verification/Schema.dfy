/** The tables of apps/control-plane/src/db.ts, as the class the stores share and as a value. */
module Schema {
  import opened Wrappers
  import opened TaskDomain

  // Instants are milliseconds on one clock.

  datatype InterpreterMode = Passthrough | Claude | Http

  /** A parsed interpreter configuration; `http` holds the url of the http block. */
  datatype Interpreter = Interpreter(mode: InterpreterMode, http: Option<string>,
                                     debounceMs: nat, ttlSeconds: nat, labels: seq<string>)

  datatype ChannelSource = FromConfig | FromApi

  datatype ChannelRow = ChannelRow(labelName: string, key: string, interpreter: Interpreter,
                                   source: ChannelSource, createdAt: int, disabledAt: Option<int>)

  datatype TaskRow = TaskRow(channelId: string, labelName: string, payloadRef: string, status: TaskStatus,
                             agent: Option<string>, threadId: Option<string>,
                             workerId: Option<string>, lease: Option<int>, createdAt: int)

  /** One audit record of a task. */
  datatype EventKind =
    | CreatedEvent(channelId: string, labelName: string, givenAgent: Option<string>, threadId: Option<string>)
    | ClaimedEvent(workerId: string, lease: int)
    | ReportedEvent(report: TaskReport)
    | AgentAssignedEvent(agent: string)
    | RetriedEvent
    | AbandonedEvent
    | StalledEvent(from: TaskStatus, workerRestarted: bool)

  datatype ThreadStatus = Open | Dispatched | Discarded | Expired

  datatype ThreadRow = ThreadRow(channelId: string, contextKey: string, status: ThreadStatus,
                                 agent: Option<string>, eventSeq: nat, interpretedSeq: nat, lastEventAt: int)

  datatype ThreadEvent = ThreadEvent(payload: string, receivedAt: int)

  /** The two event tables keep, for each task and thread, its rows in insertion order. */
  datatype Tables = Tables(
    channels: map<string, ChannelRow>,
    payloads: map<string, string>,
    tasks: map<string, TaskRow>,
    taskEvents: map<string, seq<EventKind>>,
    threads: map<string, ThreadRow>,
    threadEvents: map<string, seq<ThreadEvent>>)

  class Database {
    var channels: map<string, ChannelRow>
    var payloads: map<string, string>
    var tasks: map<string, TaskRow>
    var taskEvents: map<string, seq<EventKind>>
    var threads: map<string, ThreadRow>
    var threadEvents: map<string, seq<ThreadEvent>>

    constructor ()
      ensures Snapshot() == Tables(map[], map[], map[], map[], map[], map[])
    {
      channels, payloads, tasks, taskEvents, threads, threadEvents := map[], map[], map[], map[], map[], map[];
    }

    function Snapshot(): (t: Tables)
      reads this
    {
      Tables(channels, payloads, tasks, taskEvents, threads, threadEvents)
    }
  }

  /** The audit log of one task. */
  function LogOf(t: Tables, id: string): seq<EventKind> {
    if id in t.taskEvents then t.taskEvents[id] else []
  }

  /** The events a thread has collected. */
  function ThreadEventsOf(t: Tables, id: string): seq<ThreadEvent> {
    if id in t.threadEvents then t.threadEvents[id] else []
  }
}
