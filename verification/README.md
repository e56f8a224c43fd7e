# samdi in Dafny

samdi is a small distributed orchestrator. A control plane collects events from channels, turns
them into Tasks and hands each Task to one worker under a lease. The worker asks a start gate,
starts an agent, relays what the agent reports and waits for a person where it has to. This
project models the parts whose correctness is a matter of state and order, and proves what they
keep.

- **Task lease protocol** (`TaskDomain`, `TaskStore`, `TaskRuns`, `TaskEffects`, `TaskFairness`): the
  store's methods, each proved against a function on the six tables, what each of them does row by
  row in terms of the columns alone, and theorems about every run of create, assign, claim, report,
  heartbeat, sweep, recover, resolve and clock steps.
- **Worker** (`ReportQueue`, `Worker`, `WorkerProtocol`, `WorkerStarts`, `WorkerFencing`,
  `Heartbeat`, `PollLoops`): `processOne` with its report queue and ask loop against the store, then
  many sessions, each worker with its own lease length, interleaved with every other store step on
  one clock; when agents are started; what a report can do whose claim is void; heartbeats; the
  number of polling loops.
- **Context threads** (`ThreadStore`, `Pipeline`, `PipelineRuns`, `PipelineRefinement`,
  `ThreadEffects`, `PipelineDispatch`, `ThreadFinality`, `LateEvents`): collecting events, awaiting
  the interpreter and dispatching, as sections between awaits with everything else interleaved,
  restarts of the process included.
- **Channel registry** (`ChannelRegistry`, `ChannelEffects`, `ChannelPurge`, `PipelinePurge`): the
  cache against its table, what each operation does to either, and the cascading purge under the
  schema's foreign keys, also between runs of the pipeline.
- **Text and settings** (`ShellQuote`, `ConfigMerge`, `WorkerState`): the agent's start script
  read back by a POSIX shell reader, the override merge, the saved worker settings.

`Schema` holds the tables, `Wrappers` the shared option, result and enumeration types. Tables are
maps, event logs are sequences in insertion order. A synchronous store method is one atomic step.
Random UUIDs and key material, the interpreter's answers, the agent's reports, the user's decisions
and the time are parameters. Server and workers share one clock that never goes back, and a
method reads it once.

## What the code does where its documentation says otherwise

- `packages/task-domain/src/state-machine.ts:12` says a stalled task is left only by a person's
  retry or abandonment. A late `failed` report is accepted there too, and an abandonment is also
  accepted of running and waiting tasks (`TaskRuns.StalledGateIsPorous`). Either one ends the task,
  so it is the last event of its log, and stalls equal retries plus abandonments, plus one while
  stalled, exactly when the last event is neither (`TaskRuns.NothingIsRedeliveredAlone`, with the
  runs `RunningTaskAbandoned` and `StalledTaskFailedLate`). That claims equal retries, plus one
  unless the task is pending, holds always.
- The `created` audit event leaves out an empty agent name that the row keeps, so replaying the
  log gives the stored agent except there (`TaskRuns.AuditTrailIsComplete`). Every HTTP entry
  requires a non-empty name (`packages/protocol/src/api.ts:9` and line 96), so only a direct call
  of the store reaches this case.
- `apps/control-plane/src/pipeline.ts:41` and `apps/control-plane/src/thread-store.ts:113` say no
  thread is interpreted twice. Two overlapping `runDue` calls of a channel can give every due
  thread but the first a second task (`PipelineDispatch.OverlappingCallsDuplicate`); what is missing
  is a look at the thread's status before interpreting it
  (`PipelineDispatch.UnguardedBeginDuplicates`). A restart of the process does the same to an open
  thread whose task is created and which is not closed yet (`PipelineDispatch.CrashDuplicates`);
  with no such thread it does no harm (`PipelineDispatch.RestartMatches`).
- Closing does not look at the status. A thread that expires while the interpreter has it ends as
  dispatched when the answer is to dispatch (`ThreadFinality.ExpiredThreadDispatched`, and from the
  start `FreshThreadExpiresAndDispatches`); a closed thread is final exactly when every call is
  done with it (`ThreadFinality.ClosedThreadIsFinal`).
- `apps/control-plane/src/thread-store.ts:130` says a thread that gets an event during its
  interpretation stays up for another one. A stored event that no call has read is never read
  exactly when its thread is closed and the calls that still have the thread are past it
  (`LateEvents.UnreadForever`); so an answer of noise, the end of a dispatch and an expiry each lose
  the unread events of a thread that no other call is about to read, and only those
  (`LateEvents.NoiseLosesLateEvents`, `DispatchLosesUnreadEvents`, `ExpiryLosesUnreadEvents`, with a
  run from the start in `FreshEventLost`).
- `apps/worker/src/index.ts:369` says one or two lost heartbeats do no harm. With a lease under
  fifteen seconds two are enough (`Heartbeat.ShortLeaseIsSwept`).
- `apps/worker/src/worker.ts:120` says an asking agent gets the user's decision. It does exactly when
  the session consumes its ask; asks still queued behind the last word are dropped with the queue
  and never answered (`Worker.PromisesKept`).
- Reports carry no claim. For every claimable task there is a run in which a session whose claim
  has gone void completes it under the session that holds the latest claim, with an agent started
  for either (`WorkerFencing.VoidClaimDecides`). A report disturbs another session exactly when they share the
  task and the table accepts it (`WorkerFencing.ForeignReportDisturbs`); checking that the sender's
  claim is the task's latest is what would prevent it (`WorkerFencing.FenceProtects`).
- An agent chosen during an approval outlives its session: a later session of the task starts
  another adapter than it would on its own under an exact condition (`Worker.ChoiceOutlivesSession`).
- Creating or updating a channel writes the row before the interpreter is built, and building an
  `http` interpreter without a url throws: the row stays, and the next `load()` throws at it.
  Rotating the key of a disabled channel puts it back in the cache. These are exactly the
  operations that do not survive a restart (`ChannelRegistry.RestartTells`).
- Lowering and raising the concurrency before the marked loops have ended leaves too few
  (`PollLoops.ShrinkThenGrow`).

## Model

| member | source | states |
|---|---|---|
| `TaskDomain.BackToClaimedOnlyThroughStalled` | packages/task-domain/src/state-machine.ts:4-26 | every walk through the table that comes back to claimed passed through stalled and then pending: no redelivery without the manual gate |
| `TaskDomain.TransitionsTell` | packages/task-domain/src/state-machine.ts:4-26 | for each status exactly where it is reached from; the terminal ones are those that lead nowhere, the leased ones those that can stall |
| `TaskStore.TaskStore.AppendEvent` | apps/control-plane/src/task-store.ts:87-91 | one event goes to the end of one task's log, nothing else changes |
| `TaskStore.TaskStore.CreateTask` | apps/control-plane/src/task-store.ts:101-124 | payload, pending row and created event; what is left behind when a constraint fails |
| `TaskStore.TaskStore.ClaimNext` | apps/control-plane/src/task-store.ts:133-155 | takes a pending row with one of the labels than which none is older, gives it worker, lease and audit event; nothing exactly when there is none |
| `TaskStore.TaskStore.ApplyReport` | apps/control-plane/src/task-store.ts:157-166 | the report's target status if the table allows it, else an error and no change |
| `TaskStore.TaskStore.AssignAgent` | apps/control-plane/src/task-store.ts:169-179 | only a pending task takes an agent |
| `TaskStore.TaskStore.ResolveStalled` | apps/control-plane/src/task-store.ts:182-193 | retry or abandonment if the table allows it, with worker and lease cleared |
| `TaskStore.TaskStore.StallRows` | apps/control-plane/src/task-store.ts:210-215 | the loop over selected rows stalls each once and logs the status it had |
| `TaskStore.TaskStore.RecoverWorkerTasks` | apps/control-plane/src/task-store.ts:203-217 | stalls exactly the claimed, running and waiting rows of the worker, returns exactly their ids, and leaves every other row and log alone |
| `TaskStore.TaskStore.ExtendWaitingLeases` | apps/control-plane/src/task-store.ts:230-246 | moves the lease of exactly the listed waiting rows of this worker, returns exactly their ids, without audit events |
| `TaskStore.TaskStore.SweepExpiredLeases` | apps/control-plane/src/task-store.ts:249-264 | stalls exactly the claimed, running and waiting rows whose lease lies in the past and counts them |
| `TaskEffects.CreationTells` | apps/control-plane/src/task-store.ts:101-124 | created exactly for a new payload, a new id and a known channel, with every column and the audit event; else at most the payload is left |
| `TaskEffects.ClaimTells` | apps/control-plane/src/task-store.ts:133-155 | what a claim may take, by status, label and age, and all it changes |
| `TaskEffects.ReportTells` | apps/control-plane/src/task-store.ts:157-166 | for each report exactly the statuses it is accepted from and the one it leads to, all it changes, and each error |
| `TaskEffects.AssignmentTells` | apps/control-plane/src/task-store.ts:169-179 | accepted exactly for a pending task, all it changes, and each error |
| `TaskEffects.ResolutionTells` | apps/control-plane/src/task-store.ts:182-193 | retry exactly from stalled, abandonment exactly from running, waiting and stalled, all they change, and each error |
| `TaskEffects.RecoveryTells` | apps/control-plane/src/task-store.ts:203-217 | afterwards no task of the worker is claimed, running or waiting; exactly those that were are stalled with one more event that says so; every other row and log is as before |
| `TaskEffects.SweepTells` | apps/control-plane/src/task-store.ts:249-264 | exactly the claimed, running and waiting tasks with a lease strictly in the past are stalled with one more event; every other row and log is as before |
| `TaskEffects.ExtensionTells` | apps/control-plane/src/task-store.ts:230-246 | exactly the worker's own listed waiting tasks get the new lease; every other row, and every log, is as before |
| `TaskEffects.Perform` | apps/control-plane/src/task-store.ts:101-264 | each of the store's methods is one of the steps the runs are made of |
| `TaskRuns.StepKeepsConsistent` | apps/control-plane/src/task-store.ts:101-264 | every step, also sweep and recover that never ask the table, keeps each row in agreement with a legal audit log and each payload with one task |
| `TaskRuns.RunKeepsConsistent` | apps/control-plane/src/task-store.ts:101-264 | the same over runs of any length |
| `TaskRuns.AuditTrailIsComplete` | apps/control-plane/src/task-store.ts:101-264 | after every run from a fresh or otherwise consistent database replaying a task's log gives its status and worker, and its agent exactly when it does not still have the empty name it was created with |
| `TaskRuns.LegalLogIsAPath` | packages/task-domain/src/state-machine.ts:4-26 | the statuses a legal log passes through are a walk through the table from pending to where it replays |
| `TaskRuns.DeliveriesBalance` | apps/control-plane/src/task-store.ts:133-264 | in a legal log claims are paid for by retries, and stalls by retries, abandonments and late failures, counted exactly |
| `TaskRuns.AroundOnlyOnce` | apps/control-plane/src/task-store.ts:157-193 | those two effects never add up: together they occur once, as the last event of a failed task, or not at all |
| `TaskRuns.NothingIsRedeliveredAlone` | apps/control-plane/src/task-store.ts:133-264 | for every task after every such run claims = retries + (0 if pending else 1); stalls = retries + abandonments + (1 if stalled) exactly when the last event is neither an abandonment of a task that had not stalled nor a report on one that had |
| `TaskRuns.StalledGateIsPorous` | apps/control-plane/src/task-store.ts:157-193 | when retry, abandonment and a report on a stalled task are accepted, each if and only if |
| `TaskRuns.RunningTaskAbandoned` | apps/control-plane/src/task-store.ts:182-193 | a run from an empty store with one abandonment and no stall |
| `TaskRuns.StalledTaskFailedLate` | apps/control-plane/src/task-store.ts:157-166 | a run in which a stalled task fails without a person being asked |
| `TaskRuns.TerminalForever` | packages/task-domain/src/state-machine.ts:14-20 | a rejected, completed or failed task's row and log are the same after any run |
| `TaskRuns.LeaseIsTheLastGrant` | apps/control-plane/src/task-store.ts:133-246 | in every reachable state an in-flight task has a worker, and its lease is the one its latest claim or waiting heartbeat granted |
| `TaskRuns.SweepClearsExpired` | apps/control-plane/src/task-store.ts:249-264 | after a sweep no in-flight lease has run out, and rows that had not are untouched |
| `TaskRuns.IdentityKept` | apps/control-plane/src/task-store.ts:101-264 | no step removes a task, changes its channel, label, payload, thread or creation time, or shortens its log |
| `TaskFairness.RivalsStep` | apps/control-plane/src/task-store.ts:133-155 | a claim over the label set, listed in whatever order, removes one of the tasks ahead, and only a retry or a creation in the same millisecond adds one |
| `TaskFairness.OvertakingBalance` | apps/control-plane/src/task-store.ts:133-155 | over any run that passes a task by, claims over its label set plus tasks still ahead never exceed tasks ahead at first plus such arrivals |
| `TaskFairness.BoundedOvertaking` | apps/control-plane/src/task-store.ts:133-155 | with k tasks ahead, a pending task has been claimed once k plus the intervening retries are exceeded by claims over its label set |
| `ReportQueue.ReportQueue.Push` | apps/worker/src/worker.ts:42-50 | hands the report to a parked consumer, else queues it last |
| `ReportQueue.ReportQueue.Next` | apps/worker/src/worker.ts:52-66 | takes the head at once, or parks |
| `ReportQueue.ReportQueue.Timeout` | apps/worker/src/worker.ts:56-59 | unparks without a report |
| `ReportQueue.NothingLostOrReordered` | apps/worker/src/worker.ts:38-67 | over every interleaving of push, next and timeout with one consumer, delivered followed by queued is pushed, in order, and a parked consumer means an empty queue |
| `ReportQueue.EachAskEndsOnce` | apps/worker/src/worker.ts:42-66 | over every interleaving each request of the consumer ends in exactly one report or one timeout, or is still parked |
| `Worker.PromisesKept` | apps/worker/src/worker.ts:122-322 | of the agent's reports taken in, in order, an ask is told a decision if and only if the session consumes it, namely that of its own approval; what is left in the queue at the last word is told nothing |
| `Worker.Worker.HandleLocalReport` | apps/worker/src/worker.ts:122-138 | reaches the queue of its task and no other; refused for a task not in progress; exactly an ask that is taken is promised an answer |
| `Worker.Worker.Relay` | apps/worker/src/worker.ts:281-313 | each agent report sends exactly its reports, each accepted; an asking agent is told the user's decision, and the loop goes on exactly after an approval |
| `Worker.Worker.ChooseAgent` | apps/worker/src/worker.ts:144-148 | accepted exactly while an approval is pending |
| `Worker.Worker.Decide` | apps/worker/src/worker.ts:156-161 | the first decision counts |
| `Worker.Worker.WaitForApproval` | apps/worker/src/worker.ts:169-181 | returns the user's decision, keeps the last agent chosen meanwhile, leaves no pending approval, and touches no other task |
| `Worker.Worker.AwaitReport` | apps/worker/src/worker.ts:272-275 | the oldest undelivered report, or none when nothing came before the timer, with no consumer left parked |
| `Worker.Worker.Turn` | apps/worker/src/worker.ts:272-314 | one turn of the ask loop sends exactly the reports its input calls for, each accepted by the store |
| `Worker.Worker.Converse` | apps/worker/src/worker.ts:259-314 | the whole loop, for any number of asks, sends the planned conversation, tells each consumed ask its decision, leaves the unconsumed reports in the queue, and ends |
| `Worker.Worker.Launch` | apps/worker/src/worker.ts:254-268 | the adapter is started after the store has accepted the started report, the last event of the task's log then, and after the task has its queue |
| `Worker.Worker.Clear` | apps/worker/src/worker.ts:212-241 | deny, ask and allow: the reports up to the decision, and cleared exactly when allowed, or asked and approved |
| `Worker.Worker.Handle` | apps/worker/src/worker.ts:211-316 | gate, approval, choice of adapter, start and conversation follow the course the inputs determine, every report accepted |
| `Worker.Worker.Forget` | apps/worker/src/worker.ts:317-322 | the finally block clears four of the five maps, for this task only |
| `Worker.Worker.ProcessOne` | apps/worker/src/worker.ts:184-323 | claims an oldest task, leaves the store as the course's reports do, the agent choice for the task as the last approval consumed left it, and the worker's state about other tasks as it was; tells the agent the decisions the course says, and forgets the reports it says are left |
| `Worker.ConversationAccepted` | apps/worker/src/worker.ts:272-314 | however often the agent asks, its conversation is legal from running, and its last word decides the end: completed, failed, or running exactly when the timer fires with nothing waiting |
| `Worker.PlanAccepted` | apps/worker/src/worker.ts:211-316 | for every gate verdict, decision and report sequence the table accepts every report of a freshly claimed task, and the exact status it ends in, running only when the agent fell silent |
| `Worker.PlanStartsOnce` | apps/worker/src/worker.ts:211-316 | whatever the gate, the user and the agent do, a session reports the start at most once |
| `Worker.ConversationTells` | apps/worker/src/worker.ts:283-313 | report by report what the store is told of a conversation: the question and the resumption for each approved ask, then the last word with the agent's own summary or reason |
| `Worker.ChoicesTell` | apps/worker/src/worker.ts:144-148 | the agents picked during a conversation are those of its consumed asks, in order |
| `Worker.NextAccepted` | apps/worker/src/worker.ts:211-316 | each report of such a plan is accepted by the store when its turn comes |
| `Worker.CourseOutcome` | apps/worker/src/worker.ts:211-323 | a normal return leaves the task rejected, or, once an adapter was started, as the agent's last word says, running exactly when there was none; a missing adapter leaves it claimed or waiting; other tasks are untouched |
| `Worker.GateTells` | packages/policy-gateway/src/index.ts:50-69 | deny exactly for an instruction of nothing but spaces; allow exactly when it is not that and approval is not required or the channel or the label is exempt; ask otherwise, with a question that shows the instruction, or its first 120 characters and an ellipsis |
| `Worker.StartIsGuarded` | packages/policy-gateway/src/index.ts:50-69 | an adapter is started if and only if the instruction is not blank, the policy exempts the task or the user approves, and the agent chosen has an adapter; and exactly when the started report is sent |
| `Worker.GateReports` | apps/worker/src/worker.ts:214-235 | what the store is told up to the decision to start, in the gate's words |
| `Worker.AdapterTells` | apps/worker/src/worker.ts:243-249 | which adapter a session starts, by the user's choices, the task's agent, the registry and the default, and when it throws instead |
| `Worker.LeftoverChangesStart` | apps/worker/src/worker.ts:245-249 | a leftover choice changes the adapter started if and only if the session is cleared, makes no choice of its own, and the leftover differs from what the task's agent comes to, or hides a usable one |
| `Worker.ChoiceOutlivesSession` | apps/worker/src/worker.ts:245-249 | of two sessions of one task, the second starts another adapter than on its own if and only if some approval of the first brought a choice and the last one meets that condition |
| `WorkerProtocol.RunsSimulate` | apps/worker/src/worker.ts:184-323 | in every interleaving, each worker with its own lease length, each session whose task nobody else moved knows its task's status and holds its lease, and its timer outlives the lease |
| `WorkerProtocol.TimerTells` | apps/worker/src/worker.ts:272-280 | a session that waits for its agent gives up exactly once it has waited for its lease length, and then does nothing more |
| `WorkerProtocol.ReportsAreAccepted` | apps/worker/src/worker.ts:211-316 | in every interleaving the store accepts each report of such a session |
| `WorkerProtocol.GivenUpTasksAreSwept` | apps/worker/src/worker.ts:272-280 | when a session gives up its task's lease has run out, after any number of approvals with heartbeats, so a strictly later sweep stalls it |
| `WorkerProtocol.EndedSessions` | apps/worker/src/worker.ts:283-323 | a session that has sent everything leaves its task where its reports lead, running exactly when it listens for its agent; one that ended without giving up leaves it finished, or never started |
| `WorkerProtocol.GivenUpTasksRun` | apps/worker/src/worker.ts:275-280 | a session that gave up leaves its task running until somebody else moves it |
| `WorkerProtocol.ProcessOneIsARun` | apps/worker/src/worker.ts:184-323 | what ProcessOne promises with nobody in between is one of the interleaved runs, with one start of an agent exactly when it starts an adapter |
| `WorkerStarts.StartsAreGuarded` | apps/worker/src/worker.ts:254-268 | in every interleaving no claim of a task has its agent started twice, each start comes after an accepted started report of its own that the audit log holds and that follows the claim, and a session has started nothing before its report is accepted |
| `WorkerStarts.StartsWhileRunning` | apps/worker/src/worker.ts:254-268 | in every interleaving a session that nobody disturbed starts its agent while its task is running |
| `WorkerFencing.ForeignReportDisturbs` | apps/control-plane/src/task-store.ts:157-166 | one session's report disturbs another if and only if it was disturbed, or they share the task and the table accepts the report |
| `WorkerFencing.VoidClaimDecides` | apps/control-plane/src/task-store.ts:157-166 | from every system at rest and for every claimable task, a run in which a claim goes void by sweep and retry, a second worker claims, both have started their agents, and the void session's report completes the task while the current session's is refused |
| `WorkerFencing.RunsStayNumbered` | apps/control-plane/src/task-store.ts:133-166 | in every run no two sessions hold the same claim of a task as the audit log counts them |
| `WorkerFencing.FenceProtects` | apps/control-plane/src/task-store.ts:157-166 | if only the holder of a task's latest claim could report, a session whose task nothing but reports has moved stays undisturbed in every run and each of its reports is accepted |
| `Heartbeat.PeriodTells` | apps/worker/src/index.ts:368-370 | a third of the lease in whole milliseconds, five seconds at least |
| `Heartbeat.PeriodFitsThreeTimes` | apps/worker/src/index.ts:368-370 | three heartbeat periods fit into the lease exactly from fifteen seconds on |
| `Heartbeat.BeatTells` | apps/worker/src/index.ts:369-377 | a heartbeat, delivered or lost, is followed by the next one period later, and a delivered one extends the waiting task's lease |
| `Heartbeat.WaitingIsNeverSwept` | apps/worker/src/index.ts:368-377 | a waiting task extended once stays waiting with a live lease in every run that loses no three heartbeats in a row |
| `Heartbeat.ShortLeaseIsSwept` | apps/worker/src/index.ts:368-377 | for every shorter lease, a run with two lost heartbeats in which the task is stalled |
| `PollLoops.Poller.ApplyConcurrency` | apps/worker/src/index.ts:301-316 | adds unmarked loops up to the target, marks all beyond it, unmarks none |
| `PollLoops.Poller.End` | apps/worker/src/index.ts:306-308 | a marked loop leaves the list, the others keep their order |
| `PollLoops.PollingFollowsTarget` | apps/worker/src/index.ts:284-316 | in every run polling loops plus those missing since the last change equal the last target, the missing being the ones already leaving then; and there are never more loops than the highest target |
| `PollLoops.ShrinkThenGrow` | apps/worker/src/index.ts:301-316 | a run that ends with one loop where two were asked for |
| `ThreadStore.ThreadStore.AppendEvent` | apps/control-plane/src/thread-store.ts:45-84 | joins an open thread of the key if there is one, else opens one; counter, time and event together, or nothing when a constraint fails |
| `ThreadStore.ThreadStore.DueForInterpretation` | apps/control-plane/src/thread-store.ts:115-126 | exactly the open, quiet threads with events beyond the mark, each once, longest quiet first |
| `ThreadStore.ThreadStore.MarkThread` | apps/control-plane/src/thread-store.ts:133-141 | sets the mark it is given, on this thread only |
| `ThreadStore.ThreadStore.CloseThread` | apps/control-plane/src/thread-store.ts:143-148 | sets the status whatever it was |
| `ThreadStore.ThreadStore.ExpireStale` | apps/control-plane/src/thread-store.ts:151-161 | expires and returns exactly the channel's open threads whose last event lies further back than the time to live in seconds; every other row and column is as before |
| `ThreadEffects.IngestTells` | apps/control-plane/src/thread-store.ts:45-84 | an event goes to the open thread of its channel and key, to a new one exactly when there is none, with counter, time and agent |
| `ThreadEffects.ExpiryTells` | apps/control-plane/src/thread-store.ts:151-161 | the expiry move does the same to the tables: a thread with an event within the time to live stays open |
| `ThreadEffects.ListingTells` | apps/control-plane/src/thread-store.ts:115-126 | a call lists exactly the channel's open threads that were quiet for the debounce time and hold events beyond the mark, once each, longest quiet first |
| `Pipeline.Pipeline.Ingest` | apps/control-plane/src/pipeline.ts:52-70 | a passthrough event becomes a task of the channel's label, any other joins its thread; an unknown channel changes nothing |
| `Pipeline.Pipeline.InterpretThread` | apps/control-plane/src/pipeline.ts:106-159 | nothing on failure; else the mark read at the start and what the verdict asks for |
| `Pipeline.Pipeline.RunDue` | apps/control-plane/src/pipeline.ts:87-104 | goes through the due list past busy threads, counts those handled, stops where creating a task throws, and leaves inFlight as it was |
| `Pipeline.VerdictDecides` | apps/control-plane/src/pipeline.ts:114-159 | for each verdict and failure, the thread's status and mark, and the one task a pass makes with its label, text, agent and thread, or that a constraint stopped it; other threads are left alone |
| `ThreadEffects.RunDueCounts` | apps/control-plane/src/pipeline.ts:92-103 | runDue counts the threads it got through, failed interpretations included: all that no other call is busy with, or those before the one at which creating a task threw |
| `ThreadEffects.RunDueLeaves` | apps/control-plane/src/pipeline.ts:93-95 | a thread that another call is busy with, or that is not in the list, is left alone |
| `PipelineRefinement.TurnIsARun` | apps/control-plane/src/pipeline.ts:93-102 | one pass of the loop with nothing in between is a run of the interleaved system that touches no other call |
| `PipelineRefinement.RunDueIsARun` | apps/control-plane/src/pipeline.ts:87-104 | a whole call is such a run, whatever other calls are busy with, so what is proved of runs holds of it |
| `PipelineRuns.RunsKeepThreads` | apps/control-plane/src/thread-store.ts:45-161 | counters, the one open thread per key, what each call has read and what was interpreted stay consistent under any interleaving |
| `PipelineRuns.NoEventIsSkipped` | apps/control-plane/src/thread-store.ts:45-141 | under any interleaving the counter is the number of stored events, and every event below the mark was in the input of a successful interpretation |
| `PipelineRuns.OpenThreadsStayDue` | apps/control-plane/src/thread-store.ts:115-126 | a quiet open thread is due exactly while it holds an event beyond the mark |
| `PipelineRuns.LateEventsStayUnread` | apps/control-plane/src/pipeline.ts:106-132 | the mark an answer sets is within what the interpreter saw: what arrived meanwhile stays beyond it |
| `ThreadFinality.SettledForever` | apps/control-plane/src/thread-store.ts:143-148 | a closed thread that every call is done with never reopens, gets no event and is in no further call of the interpreter, in any run |
| `ThreadFinality.ClosedThreadIsFinal` | apps/control-plane/src/thread-store.ts:143-148 | in every reachable state a closed thread is the same after every continuation if and only if no call has it ahead, in the interpreter, or still to be dispatched from another status |
| `ThreadFinality.ExpiredThreadDispatched` | apps/control-plane/src/pipeline.ts:115-151 | a thread that turns stale while the interpreter has it goes from open to expired to dispatched, with a task, in the run expire, answer, create, close |
| `ThreadFinality.FreshThreadExpiresAndDispatches` | apps/control-plane/src/pipeline.ts:115-151 | from every fresh system, in every channel and for every time to live, a run in which that happens |
| `LateEvents.RunsKeepInputs` | apps/control-plane/src/pipeline.ts:106-132 | in every run each call's input is what the thread stored, and a thread in the interpreter was given everything any call has had of it |
| `LateEvents.UnreadForever` | apps/control-plane/src/thread-store.ts:128-148 | in every reachable state a stored event no call has read is in no call's input, whatever follows, if and only if its thread is closed, no call has the thread ahead, and any call that has it in the interpreter was given too little |
| `LateEvents.NoiseLosesLateEvents` | apps/control-plane/src/pipeline.ts:132-141 | an answer of noise loses an event that came after the interpreter was given the thread if and only if no other call has the thread ahead |
| `LateEvents.DispatchLosesUnreadEvents` | apps/control-plane/src/pipeline.ts:142-157 | the close at the end of a dispatch loses an unread event under the same exact condition |
| `LateEvents.ExpiryLosesUnreadEvents` | apps/control-plane/src/thread-store.ts:151-161 | an expiry loses the unread events of a stale thread if and only if no call has it ahead and none that has it in the interpreter was given the event |
| `LateEvents.FreshEventLost` | apps/control-plane/src/pipeline.ts:106-141 | from every fresh system and in every channel a run in which the second event of a thread is never read |
| `PipelineDispatch.GuardedRunsDispatchOnce` | apps/control-plane/src/pipeline.ts:87-159 | while no call begins on a thread dispatched meanwhile and no restart cuts a dispatch in two, threads have tasks exactly when dispatched or about to be, at most one each, with the right channel and agent |
| `PipelineDispatch.SoloRunsAreGuarded` | apps/control-plane/src/pipeline.ts:87-104 | one runDue call at a time per channel, and restarts only between dispatches, are enough for that |
| `PipelineDispatch.OneTaskPerThread` | apps/control-plane/src/pipeline.ts:87-159 | then, from the empty database and from every state such runs or a purge lead to, each thread yields at most one task, and each dispatched thread has one, in its channel, created with its first event's agent, over all interleavings of ingestion, expiry, reconfiguration, restarts and task steps |
| `PipelineDispatch.RestartMatches` | apps/control-plane/src/pipeline.ts:144-151 | a restart keeps threads and tasks matched if and only if no call is between creating a task and closing its thread |
| `PipelineDispatch.CrashDuplicates` | apps/control-plane/src/pipeline.ts:144-151 | from every state with such a thread that is still open, a run of a restart and one more event that gives it a second task |
| `PipelineDispatch.RunsAreTraced` | apps/control-plane/src/pipeline.ts:143-151 | in every run, overlapping calls included, a task that names a thread stems from it: same channel, and created with its agent |
| `PipelineDispatch.UnguardedBeginDuplicates` | apps/control-plane/src/pipeline.ts:93-97 | beginning on a thread and dispatching it keeps one task per thread if and only if the thread was not dispatched before |
| `PipelineDispatch.OverlappingCallsDuplicate` | apps/control-plane/src/pipeline.ts:91-102 | for every due list of a channel and every thread in it but the first, a run of two overlapping calls that gives that thread two tasks |
| `ChannelPurge.PurgeRuns` | apps/control-plane/src/channel-registry.ts:346-372 | the ordered statements run through, every foreign key valid after each, if and only if no other channel's task shares a payload; the result is the tables without the channel |
| `ChannelPurge.PurgeLeavesNothing` | apps/control-plane/src/channel-registry.ts:344-370 | no row of the channel is left in any table, nor a payload of its tasks |
| `ChannelPurge.PurgeKeepsTheRest` | apps/control-plane/src/channel-registry.ts:344-370 | the other channels' rows, logs, threads, events and payloads are unchanged |
| `ChannelPurge.PurgeCounts` | apps/control-plane/src/channel-registry.ts:314-321 | the counts returned are what the task and thread tables lose |
| `ChannelPurge.ReachablePurgeRuns` | apps/control-plane/src/channel-registry.ts:333-375 | after any run of the store a purge succeeds, and leaves a consistent database with all foreign keys valid, from which runs go on |
| `PipelinePurge.PipelinePurgeRuns` | apps/control-plane/src/channel-registry.ts:333-375 | the same after any interleaving of ingestion, expiry, runDue calls, reconfiguration, restarts and task steps |
| `PipelinePurge.PurgeKeepsSound` | apps/control-plane/src/channel-registry.ts:344-370 | a purge of a channel that no call is scanning keeps what one task per thread rests on, other channels' calls in progress included |
| `PipelinePurge.PurgeLeavesOriginsWhole` | apps/control-plane/src/channel-registry.ts:346-370 | after every run, overlapping calls included, a purge leaves no task that names a missing thread |
| `ChannelPurge.PurgeLeavesThreadsResolved` | apps/control-plane/src/db.ts:81 | thread references, which no foreign key guards, stay whole if and only if no other channel's task names a thread of this one |
| `ChannelRegistry.ChannelRegistry.SyncFromConfig` | apps/control-plane/src/channel-registry.ts:102-124 | upserts the file's channels in order and touches no other table |
| `ChannelRegistry.ChannelRegistry.Load` | apps/control-plane/src/channel-registry.ts:127-146 | rebuilds the cache from the enabled rows, and throws exactly when one of them cannot be built |
| `ChannelRegistry.ChannelRegistry.Create` | apps/control-plane/src/channel-registry.ts:192-236 | refuses a cached id; else the row with a new key, enabled, keeping its creation time if it existed, then the cache entry if it can be built |
| `ChannelRegistry.ChannelRegistry.Update` | apps/control-plane/src/channel-registry.ts:248-277 | label and interpreter of an editable channel, key kept, the cache only for an enabled one; each error case |
| `ChannelRegistry.ChannelRegistry.RotateKey` | apps/control-plane/src/channel-registry.ts:280-291 | a new key in row and cache, whether enabled or not; each error case |
| `ChannelRegistry.ChannelRegistry.Disable` | apps/control-plane/src/channel-registry.ts:300-311 | the row stays, disabled, and the cache forgets the channel |
| `ChannelRegistry.ChannelRegistry.Transaction` | apps/control-plane/src/channel-registry.ts:346-372 | all statements or, when one breaks a foreign key, none |
| `ChannelRegistry.ChannelRegistry.Remove` | apps/control-plane/src/channel-registry.ts:333-375 | exact result for every case; on success the purged tables and the counts, without purge only when no task or thread refers to the channel; on error nothing changed |
| `ChannelRegistry.RemovalTells` | apps/control-plane/src/channel-registry.ts:333-375 | goes through if and only if the channel is editable, no task of another channel shares a payload, and purge is asked for or no task or thread refers to it; refused as in use exactly when editable, without purge and referred to, with the counts |
| `ChannelEffects.CreationTells` | apps/control-plane/src/channel-registry.ts:192-236 | row, key, label, creation time and cache entry of a registration, and each error |
| `ChannelEffects.UpdateTells` | apps/control-plane/src/channel-registry.ts:248-277 | the new label, trimmed, if it is not blank, the new interpreter if there is one, everything else in the row as before; the cache entry exactly for an enabled channel that can run; each error |
| `ChannelEffects.RotationTells` | apps/control-plane/src/channel-registry.ts:280-291 | the new key in row and cache, and each error |
| `ChannelEffects.DisablingTells` | apps/control-plane/src/channel-registry.ts:300-311 | the time in the row and the entry out of the cache, and each error |
| `ChannelEffects.LoadTells` | apps/control-plane/src/channel-registry.ts:127-146 | a start fails exactly on an enabled row without id, label or key, or interpreted over HTTP without a url; else it caches exactly the enabled rows |
| `ChannelEffects.AuthenticateTells` | apps/control-plane/src/channel-registry.ts:159-163 | exactly the key a running channel holds opens it; no key and the empty key open none |
| `ChannelEffects.TaskKeysBite` | apps/control-plane/src/db.ts:74-98 | deleting a channel's tasks, or a payload, is refused exactly while events or tasks refer to them |
| `ChannelEffects.ThreadKeysBite` | apps/control-plane/src/db.ts:45-71 | deleting a channel's threads is refused exactly while events refer to them |
| `ChannelEffects.ChannelKeysBite` | apps/control-plane/src/db.ts:45-78 | deleting a channel is refused exactly while tasks or threads refer to it |
| `ChannelRegistry.RestartTells` | apps/control-plane/src/channel-registry.ts:192-311 | from a cache that agrees with its table, an operation leaves a registry whose every key works the same after a restart if and only if it is not one of those named harmful |
| `ChannelRegistry.CacheFollowsTable` | apps/control-plane/src/channel-registry.ts:127-133 | after any sequence of the others the cache is what load() would rebuild, and authentication answers the same before and after |
| `ChannelRegistry.OnlyNewKeyOpens` | apps/control-plane/src/channel-registry.ts:159-163 | after a registration or rotation that succeeds the channel opens to the key returned and no other |
| `ChannelRegistry.EditsKeepKeys` | apps/control-plane/src/channel-registry.ts:238-277 | an update never changes which keys open which channels |
| `ChannelRegistry.OthersStay` | apps/control-plane/src/channel-registry.ts:192-375 | no operation touches the row or cache entry of another channel |
| `ChannelRegistry.DisabledStaysShut` | apps/control-plane/src/channel-registry.ts:293-311 | a disabled channel opens to no key through any operations until it is registered again or its key is rotated |
| `ChannelRegistry.FileWins` | apps/control-plane/src/channel-registry.ts:98-124 | after a sync each channel the file names is enabled and as its last entry says, the others are untouched |
| `ShellQuote.BuildRunnerScript` | packages/agent-adapter/src/claude-code.ts:48-68 | the six lines, with the permission flag only when it is set and not empty |
| `ShellQuote.QuotedReads` | packages/agent-adapter/src/claude-code.ts:39-41 | a quoted string is one shell word with exactly its text, whatever it holds, and reading stops right behind it |
| `ShellQuote.QuotedListReads` | packages/agent-adapter/src/claude-code.ts:39-41 | for every list of strings, the quoted strings joined by spaces are read back as exactly that list |
| `ShellQuote.ScriptLaunches` | packages/agent-adapter/src/claude-code.ts:48-68 | run by a shell the script starts, in its directory, the program with exactly the flags, the end-of-options mark and the prompt as one argument; nothing without the directory |
| `ShellQuote.PromptKeepsItsEnd` | packages/agent-adapter/src/claude-code.ts:28-36 | the prompt file never ends in a newline, so command substitution drops nothing |
| `ShellQuote.AgentGetsThePrompt` | packages/agent-adapter/src/claude-code.ts:94-109 | the agent's arguments are the options, the end-of-options mark, and the task's instruction, a blank line and the report rules as one argument, to the letter |
| `ShellQuote.RulesTell` | packages/agent-adapter/src/claude-code.ts:28-36 | the rules name the command that reports success with a completed body, the one that reports failure with a failed body, both to the given url, and how to ask |
| `ShellQuote.ReportCommandPosts` | packages/agent-adapter/src/claude-code.ts:32-33 | read by a shell such a command posts exactly that body as JSON to exactly that url, when the url has plain characters only |
| `ConfigMerge.DeepMerge` | packages/config/src/load.ts:35-43 | the loop computes the recursive merge, in whatever order the keys come |
| `ConfigMerge.CompactObject` | packages/config/src/load.ts:46-58 | the loop computes the value without its empty parts, and nothing when it is all empty |
| `ConfigMerge.CompactLeavesLeaves` | packages/config/src/load.ts:46-58 | compact is idempotent, leaves no undefined value or empty object at any depth, and changes no leaf |
| `ConfigMerge.EmptyMeansNoLeaf` | packages/config/src/load.ts:45-58 | compact gives nothing if and only if there is no leaf at any path |
| `ConfigMerge.OverridesLayer` | packages/config/src/load.ts:34-58 | at every path the merged configuration reads the override's leaf where there is one, and the file's exactly where the overrides have none at, above or below it |
| `ConfigMerge.BareMergeLayersAt` | packages/config/src/load.ts:35-45 | without compact a merge hides a leaf of the file, at whatever path, if and only if the patch has an empty object at that path |
| `WorkerState.WorkerState.Patch` | apps/worker/src/worker-state.ts:104-116 | override and file change together; the last override to go removes the file |
| `WorkerState.WorkerState.SetLabels` | apps/worker/src/worker-state.ts:65-70 | fails exactly when all are blank, else returns a list with exactly the trimmed labels |
| `WorkerState.WorkerState.SetConcurrency` | apps/worker/src/worker-state.ts:78-84 | takes exactly the whole numbers from 1 to 32 and returns the one set |
| `WorkerState.WorkerState.SetDefaultAgent` | apps/worker/src/worker-state.ts:92-96 | takes exactly the known agents and returns the one set |
| `WorkerState.SettingTells` | apps/worker/src/worker-state.ts:65-106 | each setting changes its own override only, drops it exactly when the value equals the configured one, and changes nothing when it is refused |
| `WorkerState.CleanedTells` | apps/worker/src/worker-state.ts:66 | labels are trimmed, blank ones dropped, and the rest kept in the order of their first occurrence |
| `WorkerState.ReadTells` | apps/worker/src/worker-state.ts:122-146 | key by key what is taken from the file, and that anything else counts as absent |
| `WorkerState.SameSetTells` | apps/worker/src/worker-state.ts:148-152 | for a list without repetitions the length test decides, by the pigeonhole principle, that both have the same elements and the other repeats none |
| `WorkerState.LabelsInForce` | apps/worker/src/worker-state.ts:65-70 | after setting labels the worker claims for exactly the cleaned ones, also when the override is dropped |
| `WorkerState.SavedIsLoaded` | apps/worker/src/worker-state.ts:104-146 | what is saved is read back, but for a blank agent name |
| `WorkerState.RestartFindsOverrides` | apps/worker/src/worker-state.ts:31-146 | from any file and after any settings a restart finds the overrides in force if and only if the agent is not overridden by a blank name |

## Left out

- Write-only columns: updated_at, last_interpreted_at, event ids and event timestamps, the payload's created_at. Audit and thread events are ordered by insertion, not by their millisecond timestamps.
- ORDER BY leaves ties open: any of the oldest rows may come first. JavaScript property order plays no part.
- createTask stores the payload and then awaits before it inserts the task; the two are one step here, which hides only a payload that no task refers to yet.
- Timers never fire early, and SQLite, JSON, Zod and YAML are taken at their word: rows hold parsed values, and saved JSON is read back as written.
- The debounce timers and the periodic sweep that call runDue are not scheduled: a scan may start at any time, with any debounce and time to live the cache may hold.
- A purge of a channel whose own threads a call is scanning is not among the interleavings of the pipeline; purges come between runs. A channel row that a task or a thread refers to is deleted by a purge alone.
- Worker.Worker.ProcessOne: runs with nobody else touching its task and with the outside given as a script; the interleavings are in the protocol of sessions.
- Worker.Worker.HandleLocalReport: says that an asking agent is promised an answer; the promise is no object of its own, and which promises are kept is what Worker.PromisesKept says.
- Adapters and configuration keys are looked up as own names only; inherited object properties are not modelled.
- ShellQuote.ScriptLaunches: a directory or program name that begins with a dash is taken as an operand, and NUL bytes, which no argument can hold, are not excluded. The reader gives no meaning to unquoted characters the script does not use.
- Strings are sequences of characters, not of UTF-16 units; only the preview length in the gate's question depends on it.
- The channel records that create, update and list return, and the masked key, are not modelled.
- HTTP routes, key checks of the web server, clients and both user interfaces; the Claude and HTTP interpreters behind their verdict, the label catalogue, Terminal spawning, activity log and worker registry.
