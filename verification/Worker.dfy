/** The execution plane: apps/worker/src/worker.ts, with the start gates of packages/policy-gateway. */
module Worker {
  import opened Wrappers
  import opened TaskDomain
  import opened Schema
  import opened TaskStore
  import opened ReportQueue

  // ----- Start gates -----

  datatype Verdict = Allow | Deny | Ask

  datatype StartDecision = StartDecision(verdict: Verdict, reason: Option<string>, question: Option<string>)

  datatype ApprovalPolicy = ApprovalPolicy(requireApproval: bool, autoPassLabels: seq<string>,
                                           autoPassChannels: seq<string>)

  /** ApprovalStartGate.evaluate. */
  function EvaluateApproval(policy: ApprovalPolicy, task: TaskRow, instruction: string): StartDecision {
    if Blank(instruction) then StartDecision(Deny, Some("지시 내용이 비어 있다"), None)
    else if !policy.requireApproval then StartDecision(Allow, None, None)
    else if task.channelId in policy.autoPassChannels then
      StartDecision(Allow, Some("채널 " + task.channelId + "는 승인 면제"), None)
    else if task.labelName in policy.autoPassLabels then
      StartDecision(Allow, Some("라벨 " + task.labelName + "은 승인 면제"), None)
    else
      var preview := if |instruction| > 120 then instruction[..120] + "…" else instruction;
      StartDecision(Ask, Some("승인 정책"), Some("이 작업을 시작할까요?\n\n" + preview))
  }

  /**
    * An instruction of nothing but spaces is denied; otherwise an exempt task is allowed, and any
    * other is asked about, in a question that shows the beginning of the instruction.
    */
  lemma GateTells(policy: ApprovalPolicy, task: TaskRow, instruction: string)
    ensures var empty, decision := AllSpace(instruction), EvaluateApproval(policy, task, instruction);
      && (decision.verdict == Deny <==> empty)
      && (decision.verdict == Allow <==>
            && !empty
            && (|| !policy.requireApproval || task.channelId in policy.autoPassChannels
                || task.labelName in policy.autoPassLabels))
      && (decision.verdict == Ask ==>
            decision.question == Some("이 작업을 시작할까요?\n\n" + if |instruction| <= 120 then instruction
                                                               else instruction[..120] + "…"))
      && decision.reason ==
           match decision.verdict
           case Deny => Some("지시 내용이 비어 있다")
           case Ask => Some("승인 정책")
           case Allow =>
             if !policy.requireApproval then None
             else if task.channelId in policy.autoPassChannels then Some("채널 " + task.channelId + "는 승인 면제")
             else Some("라벨 " + task.labelName + "은 승인 면제")
  {
    BlankTells(instruction);
  }

  // ----- What the world does while processOne waits -----

  datatype UserDecision = Approve | Refuse

  /** One approval: the agents the user picks while it is pending, then the decision. */
  datatype Answer = Answer(choices: seq<string>, decision: UserDecision)

  /** Reports that arrive before the worker asks its queue, and while it is parked there. */
  datatype Arrival = Arrival(before: seq<LocalReport>, during: seq<LocalReport>)

  /** `answers(0)` is the approval to start; after the last arrival the agent stays silent. */
  datatype Script = Script(arrivals: seq<Arrival>, answers: nat -> Answer)

  // ----- The reports processOne sends, as a function of all that -----

  const REFUSED_START := "사용자가 시작을 승인하지 않았다"
  const REFUSED := "사용자가 승인을 거부했다"

  /** What the worker reports when it consumes one agent report. */
  function Reply(item: LocalReport, answer: Answer): seq<TaskReport> {
    match item
    case AgentCompleted(summary) => [CompletedReport(summary)]
    case AgentFailed(reason) => [FailedReport(reason)]
    case AgentAsk(question) =>
      [WaitingReport(question), if answer.decision == Approve then ResumedReport else FailedReport(REFUSED)]
  }

  predicate Continues(item: LocalReport, answer: Answer) {
    item.AgentAsk? && answer.decision == Approve
  }

  function Arrived(queue: seq<LocalReport>, arrivals: seq<Arrival>): seq<LocalReport> {
    if arrivals == [] then queue else queue + arrivals[0].before + arrivals[0].during
  }

  function Later(arrivals: seq<Arrival>): seq<Arrival> {
    if arrivals == [] then [] else arrivals[1..]
  }

  /** The choices a user makes, and the decision an agent is told, when the worker consumes one agent report. */
  function AskChoices(item: LocalReport, answer: Answer): seq<string> {
    if item.AgentAsk? then answer.choices else []
  }

  function Told(item: LocalReport, answer: Answer): seq<UserDecision> {
    if item.AgentAsk? then [answer.decision] else []
  }

  /**
    * From the start of the agent on: the agent reports consumed, what is reported to the store,
    * the agents the user picks, the decisions told to asking agents, and what is left in the queue.
    */
  datatype Talk = Talk(consumed: seq<LocalReport>, reports: seq<TaskReport>, choices: seq<string>,
                       told: seq<UserDecision>, left: seq<LocalReport>)

  function TalkEnd(left: seq<LocalReport>): Talk {
    Talk([], [], [], [], left)
  }

  /** One more report is consumed first. */
  function WithItem(item: LocalReport, answer: Answer, rest: Talk): Talk {
    Talk([item] + rest.consumed, Reply(item, answer) + rest.reports, AskChoices(item, answer) + rest.choices,
         Told(item, answer) + rest.told, rest.left)
  }

  /** It ends with a last word, or when nothing is waiting before the timer fires. */
  function TalkOf(queue: seq<LocalReport>, arrivals: seq<Arrival>, answers: nat -> Answer, n: nat): Talk
    decreases |arrivals|, |queue|
  {
    var waiting := Arrived(queue, arrivals);
    if waiting == [] then TalkEnd([])
    else
      var item, answer := waiting[0], answers(n);
      var rest := if Continues(item, answer) then TalkOf(waiting[1..], Later(arrivals), answers, n + 1)
                  else TalkEnd(waiting[1..]);
      WithItem(item, answer, rest)
  }

  function Conversation(queue: seq<LocalReport>, arrivals: seq<Arrival>, answers: nat -> Answer, n: nat)
    : seq<TaskReport>
  {
    TalkOf(queue, arrivals, answers, n).reports
  }

  function TalkChoices(queue: seq<LocalReport>, arrivals: seq<Arrival>, answers: nat -> Answer, n: nat): seq<string> {
    TalkOf(queue, arrivals, answers, n).choices
  }

  /** All reports of the agent that were taken into the queue while it stood. */
  function Received(queue: seq<LocalReport>, arrivals: seq<Arrival>, answers: nat -> Answer, n: nat): seq<LocalReport>
    decreases |arrivals|, |queue|
  {
    var waiting := Arrived(queue, arrivals);
    if waiting != [] && Continues(waiting[0], answers(n))
    then [waiting[0]] + Received(waiting[1..], Later(arrivals), answers, n + 1) else waiting
  }

  lemma {:induction false} ReceivedSplits(queue: seq<LocalReport>, arrivals: seq<Arrival>, answers: nat -> Answer,
                                          n: nat)
    ensures var talk := TalkOf(queue, arrivals, answers, n);
      && Received(queue, arrivals, answers, n) == talk.consumed + talk.left && |talk.told| <= |talk.consumed|
    decreases |arrivals|, |queue|
  {
    var waiting := Arrived(queue, arrivals);
    if waiting != [] && Continues(waiting[0], answers(n)) {
      ReceivedSplits(waiting[1..], Later(arrivals), answers, n + 1);
    }
  }

  /** The `i`-th report taken in: an ask is answered if it is consumed, and nothing else is. */
  predicate Kept(talk: Talk, received: seq<LocalReport>, answers: nat -> Answer, n: nat, i: nat)
    requires i < |received|
  {
    && (i < |talk.told| <==> received[i].AgentAsk? && i < |talk.consumed|)
    && (i < |talk.told| ==> talk.told[i] == answers(n + i).decision)
  }

  lemma {:induction false} PromiseKept(queue: seq<LocalReport>, arrivals: seq<Arrival>, answers: nat -> Answer, n: nat,
                                       i: nat)
    requires i < |Received(queue, arrivals, answers, n)|
    ensures Kept(TalkOf(queue, arrivals, answers, n), Received(queue, arrivals, answers, n), answers, n, i)
    decreases |arrivals|, |queue|
  {
    var waiting := Arrived(queue, arrivals);
    if i > 0 && Continues(waiting[0], answers(n)) {
      var rest, received := TalkOf(waiting[1..], Later(arrivals), answers, n + 1),
                            Received(waiting[1..], Later(arrivals), answers, n + 1);
      PromiseKept(waiting[1..], Later(arrivals), answers, n + 1, i - 1);
      KeptAfterOne(waiting[0], rest, received, answers, n, i);
    }
  }

  /** After an approved ask everything is one place further. */
  lemma KeptAfterOne(item: LocalReport, rest: Talk, received: seq<LocalReport>, answers: nat -> Answer, n: nat, i: nat)
    requires item.AgentAsk? && 0 < i <= |received| && Kept(rest, received, answers, n + 1, i - 1)
    ensures Kept(WithItem(item, answers(n), rest), [item] + received, answers, n, i)
  {
    assert n + 1 + (i - 1) == n + i;
  }

  /**
    * An asking agent is told a decision exactly when the session consumes its ask, and it is
    * the decision of that ask's own approval. Asks that are still queued at the last word stay
    * without an answer.
    */
  lemma PromisesKept(script: Script)
    ensures var talk, received := TalkOf([], script.arrivals, script.answers, 1),
                                  Received([], script.arrivals, script.answers, 1);
      && received == talk.consumed + talk.left && |talk.told| <= |received|
      && forall i :: 0 <= i < |received| ==> Kept(talk, received, script.answers, 1, i)
  {
    ReceivedSplits([], script.arrivals, script.answers, 1);
    forall i | 0 <= i < |Received([], script.arrivals, script.answers, 1)|
      ensures Kept(TalkOf([], script.arrivals, script.answers, 1), Received([], script.arrivals, script.answers, 1),
                   script.answers, 1, i)
    {
      PromiseKept([], script.arrivals, script.answers, 1, i);
    }
  }

  predicate Cleared(decision: StartDecision, answer: Answer) {
    decision.verdict == Allow || (decision.verdict == Ask && answer.decision == Approve)
  }

  function StartQuestion(decision: StartDecision): string {
    decision.question.GetOr("이 작업을 시작할까요?")
  }

  /** What is reported up to the decision to start. */
  function Opening(decision: StartDecision, answer: Answer): seq<TaskReport> {
    match decision.verdict
    case Allow => []
    case Deny => [RejectedReport(decision.reason.GetOr("start gate denied"))]
    case Ask =>
      [WaitingReport(StartQuestion(decision))] +
      if answer.decision == Approve then [] else [RejectedReport(REFUSED_START)]
  }

  function Plan(decision: StartDecision, agentKnown: bool, script: Script): seq<TaskReport> {
    Opening(decision, script.answers(0)) +
    if Cleared(decision, script.answers(0)) && agentKnown
    then [StartedReport] + Conversation([], script.arrivals, script.answers, 1) else []
  }

  /** Sends reports one after the other. */
  function ReportAll(t: Tables, id: string, reports: seq<TaskReport>): Tables {
    if reports == [] then t
    else Report(ReportAll(t, id, reports[..|reports| - 1]), id, reports[|reports| - 1]).tables
  }

  /** Where a task's status goes when reports are sent in order; None once one is refused. */
  function StatusAfter(from: TaskStatus, reports: seq<TaskReport>): (to: Option<TaskStatus>)
    decreases |reports|
  {
    if reports == [] then Some(from)
    else if !CanTransition(from, ReportTarget(reports[0])) then None
    else StatusAfter(ReportTarget(reports[0]), reports[1..])
  }

  lemma {:induction false} StatusAfterJoin(from: TaskStatus, a: seq<TaskReport>, b: seq<TaskReport>)
    ensures StatusAfter(from, a + b)
         == match StatusAfter(from, a) case Some(mid) => StatusAfter(mid, b) case None => None
    decreases |a|
  {
    if a == [] {
      assert a + b == b;
    } else if CanTransition(from, ReportTarget(a[0])) {
      assert (a + b)[1..] == a[1..] + b;
      StatusAfterJoin(ReportTarget(a[0]), a[1..], b);
    }
  }

  /**
    * The report that ends a conversation: a completion, a failure or an ask the user refuses.
    * None when the agent falls silent: the timer fires while nothing is waiting.
    */
  function LastWord(queue: seq<LocalReport>, arrivals: seq<Arrival>, answers: nat -> Answer, n: nat)
    : Option<LocalReport>
    decreases |arrivals|, |queue|
  {
    var waiting := Arrived(queue, arrivals);
    if waiting == [] then None
    else if Continues(waiting[0], answers(n)) then LastWord(waiting[1..], Later(arrivals), answers, n + 1)
    else Some(waiting[0])
  }

  function EndOf(lastWord: Option<LocalReport>): TaskStatus {
    match lastWord
    case None => Running
    case Some(AgentCompleted(_)) => Completed
    case Some(_) => Failed
  }

  /**
    * However often the agent asks, its conversation is legal from running, and its last word
    * decides: running is where it ends exactly when the agent fell silent.
    */
  lemma {:induction false} ConversationAccepted(queue: seq<LocalReport>, arrivals: seq<Arrival>,
                                                answers: nat -> Answer, n: nat)
    ensures StatusAfter(Running, Conversation(queue, arrivals, answers, n))
         == Some(EndOf(LastWord(queue, arrivals, answers, n)))
    decreases |arrivals|, |queue|
  {
    var waiting := Arrived(queue, arrivals);
    if waiting != [] {
      var reply := Reply(waiting[0], answers(n));
      if Continues(waiting[0], answers(n)) {
        ConversationAccepted(waiting[1..], Later(arrivals), answers, n + 1);
        StatusAfterJoin(Running, reply, Conversation(waiting[1..], Later(arrivals), answers, n + 1));
      } else {
        assert Conversation(queue, arrivals, answers, n) == reply;
      }
      if waiting[0].AgentAsk? {
        assert reply == [reply[0]] + [reply[1]];
        StatusAfterJoin(Running, [reply[0]], [reply[1]]);
      }
    }
  }

  /** What the store is told for the `i`-th report consumed, and where. */
  predicate RelayedAt(talk: Talk, answers: nat -> Answer, n: nat, i: nat)
    requires i < |talk.consumed|
  {
    && 2 * i <= |talk.reports|
    && var item, decision, rest := talk.consumed[i], answers(n + i).decision, talk.reports[2 * i..];
       if i < |talk.consumed| - 1
       then item.AgentAsk? && decision == Approve && [WaitingReport(item.question), ResumedReport] <= rest
       else
         match item
         case AgentCompleted(summary) => rest == [CompletedReport(summary)]
         case AgentFailed(reason) => rest == [FailedReport(reason)]
         case AgentAsk(question) =>
           rest == [WaitingReport(question),
                    if decision == Approve then ResumedReport else FailedReport("사용자가 승인을 거부했다")]
  }

  lemma {:induction false} ReportIsRelayed(queue: seq<LocalReport>, arrivals: seq<Arrival>, answers: nat -> Answer,
                                           n: nat, i: nat)
    requires i < |TalkOf(queue, arrivals, answers, n).consumed|
    ensures RelayedAt(TalkOf(queue, arrivals, answers, n), answers, n, i)
    decreases |arrivals|, |queue|
  {
    var waiting := Arrived(queue, arrivals);
    if Continues(waiting[0], answers(n)) {
      var rest := TalkOf(waiting[1..], Later(arrivals), answers, n + 1);
      if i > 0 {
        ReportIsRelayed(waiting[1..], Later(arrivals), answers, n + 1, i - 1);
        RelayedAfterOne(waiting[0], rest, answers, n, i);
      } else {
        EmptyTalk(waiting[1..], Later(arrivals), answers, n + 1);
      }
    }
  }

  lemma EmptyTalk(queue: seq<LocalReport>, arrivals: seq<Arrival>, answers: nat -> Answer, n: nat)
    ensures TalkOf(queue, arrivals, answers, n).consumed == [] ==> TalkOf(queue, arrivals, answers, n).reports == []
  {}

  /** After an approved ask everything is two places further. */
  lemma RelayedAfterOne(item: LocalReport, rest: Talk, answers: nat -> Answer, n: nat, i: nat)
    requires Continues(item, answers(n)) && 0 < i <= |rest.consumed| && RelayedAt(rest, answers, n + 1, i - 1)
    ensures RelayedAt(WithItem(item, answers(n), rest), answers, n, i)
  {
    assert WithItem(item, answers(n), rest).reports[2 * i..] == rest.reports[2 * (i - 1)..];
    assert n + 1 + (i - 1) == n + i;
  }

  /**
    * Report by report what the store is told in a conversation: for each report consumed but the
    * last, an ask that was approved, that the task waits, with the agent's question, and that it
    * goes on; then what the last one says, in its own words.
    */
  lemma ConversationTells(script: Script)
    ensures var talk := TalkOf([], script.arrivals, script.answers, 1);
      && (talk.consumed == [] ==> talk.reports == [])
      && forall i :: 0 <= i < |talk.consumed| ==> RelayedAt(talk, script.answers, 1, i)
  {
    EmptyTalk([], script.arrivals, script.answers, 1);
    forall i | 0 <= i < |TalkOf([], script.arrivals, script.answers, 1).consumed|
      ensures RelayedAt(TalkOf([], script.arrivals, script.answers, 1), script.answers, 1, i)
    {
      ReportIsRelayed([], script.arrivals, script.answers, 1, i);
    }
  }

  /** What the user picked in the approvals of the asks among these reports. */
  function Picks(consumed: seq<LocalReport>, answers: nat -> Answer, n: nat): seq<string> {
    if consumed == [] then []
    else (if consumed[0].AgentAsk? then answers(n).choices else []) + Picks(consumed[1..], answers, n + 1)
  }

  /** The agents picked during a conversation are those of its consumed asks, in order, and no others. */
  lemma {:induction false} ChoicesTell(queue: seq<LocalReport>, arrivals: seq<Arrival>, answers: nat -> Answer, n: nat)
    ensures var talk := TalkOf(queue, arrivals, answers, n); talk.choices == Picks(talk.consumed, answers, n)
    decreases |arrivals|, |queue|
  {
    var waiting := Arrived(queue, arrivals);
    if waiting != [] && Continues(waiting[0], answers(n)) {
      ChoicesTell(waiting[1..], Later(arrivals), answers, n + 1);
      var talk, rest := TalkOf(queue, arrivals, answers, n), TalkOf(waiting[1..], Later(arrivals), answers, n + 1);
      assert talk.consumed[0] == waiting[0] && talk.consumed[1..] == rest.consumed;
    }
  }

  /** Where a plan leaves a freshly claimed task. */
  function PlanEnd(decision: StartDecision, agentKnown: bool, script: Script): TaskStatus {
    if !Cleared(decision, script.answers(0)) then Rejected
    else if !agentKnown then (if decision.verdict == Ask then Waiting else Claimed)
    else EndOf(LastWord([], script.arrivals, script.answers, 1))
  }

  lemma OpeningAccepted(decision: StartDecision, answer: Answer)
    ensures StatusAfter(Claimed, Opening(decision, answer)) == Some(
              if !Cleared(decision, answer) then Rejected else if decision.verdict == Ask then Waiting else Claimed)
  {
    if decision.verdict == Ask {
      var waiting := WaitingReport(StartQuestion(decision));
      StatusAfterJoin(Claimed, [waiting], if answer.decision == Approve then [] else [RejectedReport(REFUSED_START)]);
    }
  }

  /**
    * For every gate verdict, user decision and sequence of agent reports, the store's table
    * accepts every report of a freshly claimed task, and the task ends rejected when the start
    * was denied or refused, as the agent's last word says, or running when the agent fell
    * silent; with no adapter to start it is left as it was.
    */
  lemma PlanAccepted(decision: StartDecision, agentKnown: bool, script: Script)
    ensures StatusAfter(Claimed, Plan(decision, agentKnown, script)) == Some(PlanEnd(decision, agentKnown, script))
  {
    var opening, talk := Opening(decision, script.answers(0)), Conversation([], script.arrivals, script.answers, 1);
    OpeningAccepted(decision, script.answers(0));
    ConversationAccepted([], script.arrivals, script.answers, 1);
    StatusAfterJoin(Claimed, opening, [StartedReport] + talk);
    StatusAfterJoin(Claimed, opening, []);
    assert ([StartedReport] + talk)[1..] == talk;
  }

  lemma {:induction false} TalkStartsNothing(queue: seq<LocalReport>, arrivals: seq<Arrival>, answers: nat -> Answer,
                                             n: nat)
    ensures StartedReport !in Conversation(queue, arrivals, answers, n)
    decreases |arrivals|, |queue|
  {
    var waiting := Arrived(queue, arrivals);
    if waiting != [] && Continues(waiting[0], answers(n)) {
      TalkStartsNothing(waiting[1..], Later(arrivals), answers, n + 1);
    }
  }

  /** The start is reported at most once. */
  ghost predicate StartsOnce(plan: seq<TaskReport>) {
    forall i, j :: 0 <= i < j < |plan| && plan[i] == StartedReport ==> plan[j] != StartedReport
  }

  lemma OneStartBetween(opening: seq<TaskReport>, talk: seq<TaskReport>)
    requires StartedReport !in opening && StartedReport !in talk
    ensures StartsOnce(opening) && StartsOnce(opening + ([StartedReport] + talk))
  {}

  lemma PlanStartsOnce(decision: StartDecision, agentKnown: bool, script: Script)
    ensures StartsOnce(Plan(decision, agentKnown, script))
  {
    var opening, talk := Opening(decision, script.answers(0)), Conversation([], script.arrivals, script.answers, 1);
    TalkStartsNothing([], script.arrivals, script.answers, 1);
    assert StartedReport !in opening;
    OneStartBetween(opening, talk);
    assert opening + [] == opening;
  }

  // ----- The agents the user picks on the way -----

  /** The last choice stays. */
  function WithChoices(overrides: map<string, string>, id: string, choices: seq<string>): map<string, string> {
    if choices == [] then overrides else overrides[id := choices[|choices| - 1]]
  }

  lemma ChoicesJoin(overrides: map<string, string>, id: string, a: seq<string>, b: seq<string>)
    ensures WithChoices(WithChoices(overrides, id, a), id, b) == WithChoices(overrides, id, a + b)
  {
    if b == [] {
      assert a + b == a;
    }
  }

  /** All choices of a session: in the approval to start, then in those of the conversation. */
  function SessionChoices(decision: StartDecision, agentKnown: bool, script: Script): seq<string> {
    (if decision.verdict == Ask then script.answers(0).choices else []) +
    if Cleared(decision, script.answers(0)) && agentKnown
    then TalkChoices([], script.arrivals, script.answers, 1) else []
  }

  // ----- Sending reports to the store -----

  /** An accepted report moves one row's status. */
  lemma ReportEffect(t: Tables, id: string, report: TaskReport)
    requires id in t.tasks && CanTransition(t.tasks[id].status, ReportTarget(report))
    ensures Report(t, id, report).tables.tasks == t.tasks[id := t.tasks[id].(status := ReportTarget(report))]
  {}

  lemma StatusAfterOne(from: TaskStatus, report: TaskReport)
    ensures StatusAfter(from, [report])
         == if CanTransition(from, ReportTarget(report)) then Some(ReportTarget(report)) else None
  {
    assert [report][1..] == [];
  }

  /** Reports in order leave the task in the status they lead to, and nothing else moves. */
  lemma {:induction false} ReportAllEffect(t: Tables, id: string, reports: seq<TaskReport>)
    requires id in t.tasks && StatusAfter(t.tasks[id].status, reports).Some?
    ensures ReportAll(t, id, reports).tasks
         == t.tasks[id := t.tasks[id].(status := StatusAfter(t.tasks[id].status, reports).value)]
    decreases |reports|
  {
    if reports == [] {
      assert t.tasks[id := t.tasks[id]] == t.tasks;
    } else {
      var before, last := reports[..|reports| - 1], reports[|reports| - 1];
      assert reports == before + [last];
      StatusAfterJoin(t.tasks[id].status, before, [last]);
      ReportAllEffect(t, id, before);
      var mid := ReportAll(t, id, before);
      StatusAfterOne(mid.tasks[id].status, last);
      ReportEffect(mid, id, last);
    }
  }

  /** Each report of an accepted plan is accepted when its turn comes. */
  lemma NextAccepted(t: Tables, id: string, sent: seq<TaskReport>, report: TaskReport, plan: seq<TaskReport>)
    requires id in t.tasks && StatusAfter(t.tasks[id].status, plan).Some?
    requires sent + [report] <= plan
    ensures Report(ReportAll(t, id, sent), id, report).result.Ok?
  {
    var from := t.tasks[id].status;
    assert plan == sent + [report] + plan[|sent| + 1..];
    StatusAfterJoin(from, sent + [report], plan[|sent| + 1..]);
    StatusAfterJoin(from, sent, [report]);
    ReportAllEffect(t, id, sent);
  }

  /** When a plan is accepted, so is the started report in it. */
  lemma StartAccepted(t: Tables, id: string, opening: seq<TaskReport>, rest: seq<TaskReport>)
    requires id in t.tasks && StatusAfter(t.tasks[id].status, opening + ([StartedReport] + rest)).Some?
    ensures Report(ReportAll(t, id, opening), id, StartedReport).result.Ok?
    ensures StatusAfter(t.tasks[id].status, (opening + [StartedReport]) + rest).Some?
    ensures opening + ([StartedReport] + rest) == (opening + [StartedReport]) + rest
  {
    assert opening + ([StartedReport] + rest) == (opening + [StartedReport]) + rest;
    NextAccepted(t, id, opening, StartedReport, (opening + [StartedReport]) + rest);
  }

  /** An accepted started report is the last thing in the task's log. */
  lemma StartedLogged(t: Tables, id: string)
    requires Report(t, id, StartedReport).result.Ok?
    ensures LogOf(Report(t, id, StartedReport).tables, id) == LogOf(t, id) + [ReportedEvent(StartedReport)]
  {}

  /** What is still to come of a conversation. */
  function Rest(again: bool, queue: seq<LocalReport>, arrivals: seq<Arrival>, answers: nat -> Answer, n: nat): Talk {
    if again then TalkOf(queue, arrivals, answers, n) else TalkEnd(queue)
  }

  /** What a conversation has brought about so far. */
  datatype Progress = Progress(sent: seq<TaskReport>, told: seq<UserDecision>, overrides: map<string, string>)

  /** What it comes to when `rest` is still to follow. */
  function Whole(id: string, done: Progress, rest: Talk): (Progress, seq<LocalReport>) {
    (Progress(done.sent + rest.reports, done.told + rest.told, WithChoices(done.overrides, id, rest.choices)),
     rest.left)
  }

  /** A turn brings about its part of the whole. */
  function WithTurn(id: string, done: Progress, item: LocalReport, answer: Answer): Progress {
    Progress(done.sent + Reply(item, answer), done.told + Told(item, answer),
             WithChoices(done.overrides, id, AskChoices(item, answer)))
  }

  lemma ItemKeepsWhole(id: string, done: Progress, item: LocalReport, answer: Answer, rest: Talk)
    ensures Whole(id, done, WithItem(item, answer, rest)) == Whole(id, WithTurn(id, done, item, answer), rest)
  {
    ChoicesJoin(done.overrides, id, AskChoices(item, answer), rest.choices);
    assert done.sent + (Reply(item, answer) + rest.reports) == (done.sent + Reply(item, answer)) + rest.reports;
    assert done.told + (Told(item, answer) + rest.told) == (done.told + Told(item, answer)) + rest.told;
  }

  lemma TurnKeepsWhole(id: string, done: Progress, queue: seq<LocalReport>, arrivals: seq<Arrival>,
                       answers: nat -> Answer, n: nat)
    requires Arrived(queue, arrivals) != []
    ensures var item, later := Arrived(queue, arrivals)[0], Arrived(queue, arrivals)[1..];
      Whole(id, done, TalkOf(queue, arrivals, answers, n))
      == Whole(id, WithTurn(id, done, item, answers(n)),
               Rest(Continues(item, answers(n)), later, Later(arrivals), answers, n + 1))
  {
    var item, later := Arrived(queue, arrivals)[0], Arrived(queue, arrivals)[1..];
    var rest := Rest(Continues(item, answers(n)), later, Later(arrivals), answers, n + 1);
    assert TalkOf(queue, arrivals, answers, n) == WithItem(item, answers(n), rest);
    ItemKeepsWhole(id, done, item, answers(n), rest);
  }

  /** Nothing is done before the first turn, and nothing follows the last one. */
  lemma WholeFromStart(id: string, sent: seq<TaskReport>, overrides: map<string, string>, talk: Talk)
    ensures Whole(id, Progress(sent, [], overrides), talk)
         == (Progress(sent + talk.reports, talk.told, WithChoices(overrides, id, talk.choices)), talk.left)
  {
    assert Whole(id, Progress(sent, [], overrides), talk).0.told == talk.told;
  }

  lemma WholeAtEnd(id: string, done: Progress, left: seq<LocalReport>)
    ensures Whole(id, done, TalkEnd(left)) == (done, left)
  {
    assert done.sent + [] == done.sent && done.told + [] == done.told;
  }

  // ----- The worker -----

  datatype Phase = AtGate | AgentRunning | AwaitingApproval | Reporting

  datatype Ending = NothingToClaim | Returned | Threw

  class Worker {
    var queues: map<string, ReportQueue>
    var currentTasks: map<string, Phase>
    var pendingApprovals: map<string, string>
    var approvalResolvers: map<string, Option<UserDecision>>
    var agentOverrides: map<string, string>

    constructor ()
      ensures queues == map[] && currentTasks == map[] && pendingApprovals == map[]
      ensures approvalResolvers == map[] && agentOverrides == map[]
    {
      queues, currentTasks, pendingApprovals, approvalResolvers, agentOverrides := map[], map[], map[], map[], map[];
    }

    /** The state this worker keeps about tasks other than `id`. */
    ghost function Others(id: string): Bookkeeping
      reads this
    {
      Bookkeeping(queues - {id}, currentTasks - {id}, pendingApprovals - {id}, approvalResolvers - {id},
                  agentOverrides - {id})
    }

    /**
      * Routes a report to the queue of its task; refused when the task is not in progress. An
      * asking agent is promised the user's decision.
      */
    method HandleLocalReport(id: string, report: LocalReport)
      returns (ok: bool, promised: bool, handed: Option<LocalReport>)
      modifies if id in queues then {queues[id]} else {}
      ensures ok <==> id in queues
      ensures ok ==> (queues[id].Model(), handed) == After(old(queues[id].Model()), PushOp(report))
      ensures promised <==> ok && report.AgentAsk?
      ensures !ok ==> handed.None?
    {
      if id !in queues {
        return false, false, None;
      }
      handed := queues[id].Push(report);
      ok, promised := true, report.AgentAsk?;
    }

    /** Only a task that waits for approval takes a choice. */
    method ChooseAgent(id: string, agent: string) returns (ok: bool)
      modifies this`agentOverrides
      ensures ok <==> id in pendingApprovals
      ensures agentOverrides == if ok then old(agentOverrides)[id := agent] else old(agentOverrides)
    {
      if id !in pendingApprovals {
        return false;
      }
      agentOverrides := agentOverrides[id := agent];
      ok := true;
    }

    /** Resolves the pending approval; a second decision changes nothing. */
    method Decide(id: string, decision: UserDecision) returns (ok: bool)
      modifies this`approvalResolvers
      ensures ok <==> id in old(approvalResolvers)
      ensures approvalResolvers ==
        if ok && old(approvalResolvers)[id].None? then old(approvalResolvers)[id := Some(decision)]
        else old(approvalResolvers)
    {
      if id !in approvalResolvers {
        return false;
      }
      if approvalResolvers[id].None? {
        approvalResolvers := approvalResolvers[id := Some(decision)];
      }
      ok := true;
    }

    method SetPhase(id: string, phase: Phase)
      modifies this`currentTasks
      ensures currentTasks == if id in old(currentTasks) then old(currentTasks)[id := phase] else old(currentTasks)
      ensures Others(id) == old(Others(id))
    {
      if id in currentTasks {
        currentTasks := currentTasks[id := phase];
      }
    }

    /** Registers the approval, lets the user choose and decide, and unregisters it. */
    method WaitForApproval(id: string, question: string, answer: Answer) returns (decision: UserDecision)
      modifies this`pendingApprovals, this`approvalResolvers, this`agentOverrides
      ensures decision == answer.decision
      ensures pendingApprovals == old(pendingApprovals) - {id}
      ensures approvalResolvers == old(approvalResolvers) - {id}
      ensures agentOverrides == WithChoices(old(agentOverrides), id, answer.choices)
      ensures Others(id) == old(Others(id))
    {
      Unchanged(pendingApprovals, id, question);
      Unchanged(approvalResolvers, id, None);
      pendingApprovals := pendingApprovals[id := question];
      approvalResolvers := approvalResolvers[id := None];
      for i := 0 to |answer.choices|
        invariant pendingApprovals == old(pendingApprovals)[id := question]
        invariant approvalResolvers == old(approvalResolvers)[id := None]
        invariant agentOverrides == WithChoices(old(agentOverrides), id, answer.choices[..i])
      {
        var ok := ChooseAgent(id, answer.choices[i]);
      }
      assert answer.choices[..|answer.choices|] == answer.choices;
      if answer.choices != [] {
        Unchanged(old(agentOverrides), id, answer.choices[|answer.choices| - 1]);
      }
      var ok := Decide(id, answer.decision);
      decision := approvalResolvers[id].value;
      Unchanged(approvalResolvers, id, None);
      pendingApprovals := pendingApprovals - {id};
      approvalResolvers := approvalResolvers - {id};
    }

    /** Delivers a batch of agent reports to the task's queue. */
    method Receive(id: string, reports: seq<LocalReport>) returns (handed: Option<LocalReport>)
      requires id in queues && queues[id].Model().Valid()
      modifies queues[id]
      ensures queues[id].Model() == if old(queues[id].waiter) && reports != [] then Queue(reports[1..], false)
                                    else Queue(old(queues[id].items) + (if old(queues[id].waiter) then [] else reports),
                                               old(queues[id].waiter))
      ensures handed == if old(queues[id].waiter) && reports != [] then Some(reports[0]) else None
    {
      handed := None;
      var q := queues[id];
      ghost var items, waiter := q.items, q.waiter;
      for i := 0 to |reports|
        invariant queues == old(queues) && id in queues && queues[id] == q
        invariant q.Model() == if waiter && i > 0 then Queue(reports[1..i], false)
                               else Queue(items + (if waiter then [] else reports[..i]), waiter)
        invariant handed == if waiter && i > 0 then Some(reports[0]) else None
      {
        var ok, promised, woken := HandleLocalReport(id, reports[i]);
        if woken.Some? {
          handed := woken;
        }
        assert reports[..i + 1] == reports[..i] + [reports[i]];
        assert i > 0 ==> reports[1..i + 1] == reports[1..i] + [reports[i]];
      }
      assert reports[..|reports|] == reports;
    }

    /** One `await queue.next`: None means the timer fired first. */
    method AwaitReport(id: string, arrival: Arrival) returns (item: Option<LocalReport>)
      requires id in queues && !queues[id].waiter
      modifies queues[id]
      ensures var waiting := old(queues[id].items) + arrival.before + arrival.during;
        && !queues[id].waiter
        && item == (if waiting == [] then None else Some(waiting[0]))
        && queues[id].items == if waiting == [] then [] else waiting[1..]
    {
      var q := queues[id];
      var none := Receive(id, arrival.before);
      item := q.Next();
      var handed := Receive(id, arrival.during);
      if item.None? {
        item := handed;
        if handed.None? {
          q.Timeout();
        }
      }
    }

    /** Sends one report. That the store accepts it is for the caller to know: an error reply would throw. */
    method Send(server: TaskStore, id: string, report: TaskReport, ghost claimed: Tables, ghost sent: seq<TaskReport>)
      returns (ghost sent': seq<TaskReport>)
      requires server.db.Snapshot() == ReportAll(claimed, id, sent)
      requires Report(server.db.Snapshot(), id, report).result.Ok?
      modifies server.db
      ensures sent' == sent + [report]
      ensures server.db.Snapshot() == ReportAll(claimed, id, sent')
    {
      var r := server.ApplyReport(id, report);
      sent' := sent + [report];
      assert sent'[..|sent|] == sent;
    }

    /** The agent asks while it runs: the task waits for the user and goes on or fails as decided. */
    method AskUser(server: TaskStore, id: string, question: string, answer: Answer,
                   ghost claimed: Tables, ghost sent: seq<TaskReport>, ghost plan: seq<TaskReport>)
      returns (decision: UserDecision, ghost sent': seq<TaskReport>)
      requires id in claimed.tasks && StatusAfter(claimed.tasks[id].status, plan).Some?
      requires server.db.Snapshot() == ReportAll(claimed, id, sent)
      requires sent + Reply(AgentAsk(question), answer) <= plan
      modifies this`currentTasks, this`pendingApprovals, this`approvalResolvers, this`agentOverrides, server.db
      ensures decision == answer.decision
      ensures agentOverrides == WithChoices(old(agentOverrides), id, answer.choices)
      ensures sent' == sent + Reply(AgentAsk(question), answer)
      ensures server.db.Snapshot() == ReportAll(claimed, id, sent')
      ensures Others(id) == old(Others(id))
    {
      ghost var reply := Reply(AgentAsk(question), answer);
      assert sent + [reply[0]] <= sent + reply;
      SetPhase(id, AwaitingApproval);
      NextAccepted(claimed, id, sent, WaitingReport(question), plan);
      sent' := Send(server, id, WaitingReport(question), claimed, sent);
      decision := WaitForApproval(id, question, answer);
      assert sent' + [reply[1]] == sent + reply;
      NextAccepted(claimed, id, sent', reply[1], plan);
      if decision == Approve {
        sent' := Send(server, id, ResumedReport, claimed, sent');
        SetPhase(id, AgentRunning);
      } else {
        sent' := Send(server, id, FailedReport(REFUSED), claimed, sent');
      }
    }

    /** Relays one agent report. `told` is what resolves the promise an asking agent was given. */
    method Relay(server: TaskStore, id: string, item: LocalReport, answer: Answer,
                 ghost claimed: Tables, ghost sent: seq<TaskReport>, ghost plan: seq<TaskReport>)
      returns (again: bool, told: Option<UserDecision>, ghost sent': seq<TaskReport>)
      requires id in claimed.tasks && StatusAfter(claimed.tasks[id].status, plan).Some?
      requires server.db.Snapshot() == ReportAll(claimed, id, sent)
      requires sent + Reply(item, answer) <= plan
      modifies this`currentTasks, this`pendingApprovals, this`approvalResolvers, this`agentOverrides, server.db
      ensures again <==> Continues(item, answer)
      ensures told == if item.AgentAsk? then Some(answer.decision) else None
      ensures agentOverrides == WithChoices(old(agentOverrides), id, AskChoices(item, answer))
      ensures sent' == sent + Reply(item, answer)
      ensures server.db.Snapshot() == ReportAll(claimed, id, sent')
      ensures Others(id) == old(Others(id))
    {
      again, told := false, None;
      match item {
        case AgentCompleted(summary) =>
          SetPhase(id, Reporting);
          NextAccepted(claimed, id, sent, CompletedReport(summary), plan);
          sent' := Send(server, id, CompletedReport(summary), claimed, sent);
        case AgentFailed(reason) =>
          SetPhase(id, Reporting);
          NextAccepted(claimed, id, sent, FailedReport(reason), plan);
          sent' := Send(server, id, FailedReport(reason), claimed, sent);
        case AgentAsk(question) =>
          var decision;
          decision, sent' := AskUser(server, id, question, answer, claimed, sent, plan);
          told := Some(decision);
          again := decision == Approve;
      }
    }

    /** The same as part of the whole conversation. */
    method RelayNext(server: TaskStore, id: string, item: LocalReport, answer: Answer,
                     ghost claimed: Tables, ghost done: Progress, ghost plan: seq<TaskReport>)
      returns (again: bool, told: Option<UserDecision>)
      requires id in claimed.tasks && StatusAfter(claimed.tasks[id].status, plan).Some?
      requires server.db.Snapshot() == ReportAll(claimed, id, done.sent) && agentOverrides == done.overrides
      requires done.sent + Reply(item, answer) <= plan
      modifies this`currentTasks, this`pendingApprovals, this`approvalResolvers, this`agentOverrides, server.db
      ensures again <==> Continues(item, answer)
      ensures var done' := WithTurn(id, done, item, answer);
        && server.db.Snapshot() == ReportAll(claimed, id, done'.sent) && agentOverrides == done'.overrides
        && done'.told == done.told + if told.Some? then [told.value] else []
      ensures Others(id) == old(Others(id))
    {
      ghost var sent;
      again, told, sent := Relay(server, id, item, answer, claimed, done.sent, plan);
    }

    /** One turn of the loop: waits for a report and relays it; `again` unless it was the last one. */
    method Turn(server: TaskStore, id: string, arrivals: seq<Arrival>, answers: nat -> Answer, n: nat,
                ghost claimed: Tables, ghost done: Progress, ghost plan: seq<TaskReport>)
      returns (again: bool, ghost done': Progress)
      requires id in claimed.tasks && StatusAfter(claimed.tasks[id].status, plan).Some?
      requires server.db.Snapshot() == ReportAll(claimed, id, done.sent) && agentOverrides == done.overrides
      requires id in queues && !queues[id].waiter
      requires plan == Whole(id, done, TalkOf(queues[id].items, arrivals, answers, n)).0.sent
      modifies this`currentTasks, this`pendingApprovals, this`approvalResolvers, this`agentOverrides, server.db
      modifies queues[id]
      ensures !queues[id].waiter && Others(id) == old(Others(id))
      ensures server.db.Snapshot() == ReportAll(claimed, id, done'.sent) && agentOverrides == done'.overrides
      ensures Whole(id, done, TalkOf(old(queues[id].items), arrivals, answers, n))
           == Whole(id, done', Rest(again, queues[id].items, Later(arrivals), answers, n + 1))
      ensures again && arrivals == [] ==> |queues[id].items| < |old(queues[id].items)|
    {
      ghost var items := queues[id].items;
      var item := Awaited(id, arrivals);
      if item.None? {
        return false, done;
      }
      TurnKeepsWhole(id, done, items, arrivals, answers, n);
      done' := WithTurn(id, done, item.value, answers(n));
      var told;
      again, told := RelayNext(server, id, item.value, answers(n), claimed, done, plan);
    }

    /** The wait at the head of a turn. */
    method Awaited(id: string, arrivals: seq<Arrival>) returns (item: Option<LocalReport>)
      requires id in queues && !queues[id].waiter
      modifies queues[id]
      ensures var waiting := Arrived(old(queues[id].items), arrivals);
        && !queues[id].waiter
        && item == (if waiting == [] then None else Some(waiting[0]))
        && queues[id].items == if waiting == [] then [] else waiting[1..]
    {
      var arrival := if arrivals == [] then Arrival([], []) else arrivals[0];
      assert queues[id].items + arrival.before + arrival.during == Arrived(queues[id].items, arrivals);
      item := AwaitReport(id, arrival);
    }

    /**
      * From the started agent to its last word: consumes its reports one by one, until one
      * ends the task or the timer fires before anything arrives.
      */
    method Converse(server: TaskStore, id: string, script: Script, ghost claimed: Tables, ghost begun: seq<TaskReport>)
      returns (ghost told: seq<UserDecision>, ghost left: seq<LocalReport>, ghost sent: seq<TaskReport>)
      requires server.db.Snapshot() == ReportAll(claimed, id, begun)
      requires id in queues && !queues[id].waiter && queues[id].items == []
      requires id in claimed.tasks
      requires StatusAfter(claimed.tasks[id].status,
                           begun + TalkOf([], script.arrivals, script.answers, 1).reports).Some?
      modifies this`currentTasks, this`pendingApprovals, this`approvalResolvers, this`agentOverrides, server.db
      modifies queues[id]
      ensures (Progress(sent, told, agentOverrides), left)
           == Whole(id, Progress(begun, [], old(agentOverrides)), TalkOf([], script.arrivals, script.answers, 1))
      ensures server.db.Snapshot() == ReportAll(claimed, id, sent)
      ensures queues == old(queues) && queues[id].items == left
      ensures Others(id) == old(Others(id))
    {
      var queue := queues[id];
      var arrivals, n, again := script.arrivals, 1, true;
      ghost var done := Progress(begun, [], agentOverrides);
      ghost var whole := Whole(id, done, TalkOf([], script.arrivals, script.answers, 1));
      while again
        invariant queues == old(queues) && queues[id] == queue && !queue.waiter
        invariant Others(id) == old(Others(id))
        invariant server.db.Snapshot() == ReportAll(claimed, id, done.sent) && agentOverrides == done.overrides
        invariant whole == Whole(id, done, Rest(again, queue.items, arrivals, script.answers, n))
        decreases again, |arrivals|, |queue.items|
      {
        again, done := Turn(server, id, arrivals, script.answers, n, claimed, done, whole.0.sent);
        arrivals, n := Later(arrivals), n + 1;
      }
      WholeAtEnd(id, done, queue.items);
      told, left, sent := done.told, queue.items, done.sent;
    }

    /**
      * Claims a task and sees it through. `started` is the adapter whose start is called.
      * Nobody else touches the task meanwhile; the interleaved protocol drops that.
      */
    method ProcessOne(server: TaskStore, workerId: string, labels: seq<string>, leaseSeconds: nat, now: int,
                      gate: (TaskRow, string) -> StartDecision, adapters: set<string>, defaultAgent: string,
                      script: Script)
      returns (ending: Ending, claimed: Option<string>, started: Option<string>, ghost told: seq<UserDecision>,
               ghost left: seq<LocalReport>, ghost sent: seq<TaskReport>)
      modifies this, server.db
      ensures ending == NothingToClaim <==> claimed.None?
      ensures claimed.None? ==>
        && server.db.Snapshot() == old(server.db.Snapshot()) && started.None?
        && forall id <- old(server.db.tasks) :: !Claimable(old(server.db.Snapshot()), labels, id)
      ensures claimed.Some? ==>
        var id, t := claimed.value, old(server.db.Snapshot());
        && Oldest(t, labels, id)
        && var taken := Claim(t, id, workerId, leaseSeconds, now);
           && Course(ending, sent, started, told, left, agentOverrides)
              == CourseOf(old(agentOverrides), id, taken.tasks[id],
                          gate(taken.tasks[id], if t.tasks[id].payloadRef in t.payloads
                                                then t.payloads[t.tasks[id].payloadRef] else ""),
                          adapters, defaultAgent, script)
           && server.db.Snapshot() == ReportAll(taken, id, sent)
           && Others(id) == old(Others(id))
           && id !in queues && id !in currentTasks && id !in pendingApprovals && id !in approvalResolvers
    {
      started, told, left, sent := None, [], [], [];
      claimed := server.ClaimNext(workerId, labels, leaseSeconds, now);
      if claimed.None? {
        return NothingToClaim, None, None, [], [], [];
      }
      var id := claimed.value;
      ghost var taken := server.db.Snapshot();
      var task := server.db.tasks[id];
      var instruction := Instruction(server.db.Snapshot(), id);
      Begin(id);
      var decision := gate(task, instruction);
      ending, started, told, left, sent := Handle(server, id, task, decision, adapters, defaultAgent, script, taken);
      Forget(id);
    }

    method Begin(id: string)
      modifies this`currentTasks
      ensures Others(id) == old(Others(id)) && id in currentTasks
    {
      Unchanged(currentTasks, id, AtGate);
      currentTasks := currentTasks[id := AtGate];
    }

    /** The finally block: it leaves the user's agent choice behind. */
    method Forget(id: string)
      modifies this
      ensures Others(id) == old(Others(id)) && agentOverrides == old(agentOverrides)
      ensures id !in queues && id !in currentTasks && id !in pendingApprovals && id !in approvalResolvers
    {
      queues := queues - {id};
      pendingApprovals := pendingApprovals - {id};
      approvalResolvers := approvalResolvers - {id};
      currentTasks := currentTasks - {id};
    }

    /** Asks a person before anything is started. */
    method AskFirst(server: TaskStore, id: string, decision: StartDecision, answer: Answer,
                    ghost taken: Tables, ghost plan: seq<TaskReport>)
      returns (approved: bool, ghost sent: seq<TaskReport>)
      requires decision.verdict == Ask && server.db.Snapshot() == taken
      requires id in taken.tasks && StatusAfter(taken.tasks[id].status, plan).Some?
      requires Opening(decision, answer) <= plan
      modifies this`currentTasks, this`pendingApprovals, this`approvalResolvers, this`agentOverrides, server.db
      ensures approved <==> answer.decision == Approve
      ensures sent == Opening(decision, answer) && server.db.Snapshot() == ReportAll(taken, id, sent)
      ensures agentOverrides == WithChoices(old(agentOverrides), id, answer.choices)
      ensures Others(id) == old(Others(id))
    {
      ghost var opening := Opening(decision, answer);
      SetPhase(id, AwaitingApproval);
      assert [] + [opening[0]] <= opening;
      NextAccepted(taken, id, [], opening[0], plan);
      sent := Send(server, id, WaitingReport(StartQuestion(decision)), taken, []);
      var decided := WaitForApproval(id, StartQuestion(decision), answer);
      if decided == Refuse {
        NextAccepted(taken, id, sent, RejectedReport(REFUSED_START), plan);
        sent := Send(server, id, RejectedReport(REFUSED_START), taken, sent);
      }
      approved := decided == Approve;
    }

    /** The gate denies the start. */
    method TurnDown(server: TaskStore, id: string, decision: StartDecision,
                    ghost taken: Tables, ghost plan: seq<TaskReport>)
      returns (ghost sent: seq<TaskReport>)
      requires server.db.Snapshot() == taken
      requires id in taken.tasks && StatusAfter(taken.tasks[id].status, plan).Some?
      requires [RejectedReport(decision.reason.GetOr("start gate denied"))] <= plan
      modifies server.db
      ensures sent == [RejectedReport(decision.reason.GetOr("start gate denied"))]
      ensures server.db.Snapshot() == ReportAll(taken, id, sent)
    {
      assert [] + [plan[0]] == [plan[0]];
      NextAccepted(taken, id, [], plan[0], plan);
      sent := Send(server, id, RejectedReport(decision.reason.GetOr("start gate denied")), taken, []);
    }

    /** The start gate's verdict, and the approval it may ask for; false once the task is rejected. */
    method Clear(server: TaskStore, id: string, decision: StartDecision, answer: Answer,
                 ghost taken: Tables, ghost plan: seq<TaskReport>)
      returns (cleared: bool, ghost sent: seq<TaskReport>)
      requires server.db.Snapshot() == taken
      requires id in taken.tasks && StatusAfter(taken.tasks[id].status, plan).Some?
      requires Opening(decision, answer) <= plan
      modifies this, server.db
      ensures cleared <==> Cleared(decision, answer)
      ensures sent == Opening(decision, answer) && server.db.Snapshot() == ReportAll(taken, id, sent)
      ensures agentOverrides
           == WithChoices(old(agentOverrides), id, if decision.verdict == Ask then answer.choices else [])
      ensures Others(id) == old(Others(id))
    {
      sent := [];
      if decision.verdict == Deny {
        sent := TurnDown(server, id, decision, taken, plan);
        return false, sent;
      }
      if decision.verdict == Ask {
        cleared, sent := AskFirst(server, id, decision, answer, taken, plan);
        return;
      }
      cleared := true;
    }

    /**
      * The call of adapter.start, which nobody waits for. It comes when the store has just
      * accepted the started report of the task and the task's queue stands.
      */
    method StartAdapter(server: TaskStore, id: string, agent: string, adapters: set<string>)
      returns (started: Option<string>)
      requires agent in adapters && id in queues
      requires var log := LogOf(server.db.Snapshot(), id);
        log != [] && log[|log| - 1] == ReportedEvent(StartedReport)
      ensures started == Some(agent)
    {
      started := Some(agent);
    }

    /** Reports that the agent is started, and starts it. */
    method Launch(server: TaskStore, id: string, agent: string, adapters: set<string>,
                  ghost taken: Tables, ghost opening: seq<TaskReport>)
      returns (started: Option<string>, ghost sent: seq<TaskReport>)
      requires server.db.Snapshot() == ReportAll(taken, id, opening) && agent in adapters
      requires Report(server.db.Snapshot(), id, StartedReport).result.Ok?
      modifies this`queues, this`currentTasks, server.db
      ensures started == Some(agent) && sent == opening + [StartedReport]
      ensures server.db.Snapshot() == ReportAll(taken, id, sent)
      ensures id in queues && fresh(queues[id]) && queues[id].items == [] && !queues[id].waiter
      ensures Others(id) == old(Others(id))
    {
      StartedLogged(server.db.Snapshot(), id);
      sent := Send(server, id, StartedReport, taken, opening);
      assert sent[..|opening|] == opening;
      SetPhase(id, AgentRunning);
      var queue := new ReportQueue();
      Unchanged(queues, id, queue);
      queues := queues[id := queue];
      started := StartAdapter(server, id, agent, adapters);
    }

    /** From the started report on. */
    method RunAgent(server: TaskStore, id: string, agent: string, adapters: set<string>, script: Script,
                    ghost taken: Tables, ghost opening: seq<TaskReport>)
      returns (started: Option<string>, ghost told: seq<UserDecision>, ghost left: seq<LocalReport>,
               ghost sent: seq<TaskReport>)
      requires server.db.Snapshot() == ReportAll(taken, id, opening) && id in taken.tasks && agent in adapters
      requires StatusAfter(taken.tasks[id].status,
                 opening + ([StartedReport] + TalkOf([], script.arrivals, script.answers, 1).reports)).Some?
      modifies this, server.db
      ensures started == Some(agent)
      ensures var talk := TalkOf([], script.arrivals, script.answers, 1);
        && sent == opening + ([StartedReport] + talk.reports) && told == talk.told && left == talk.left
        && agentOverrides == WithChoices(old(agentOverrides), id, talk.choices)
      ensures server.db.Snapshot() == ReportAll(taken, id, sent)
      ensures Others(id) == old(Others(id))
    {
      ghost var talk := TalkOf([], script.arrivals, script.answers, 1);
      StartAccepted(taken, id, opening, talk.reports);
      started, sent := Launch(server, id, agent, adapters, taken, opening);
      WholeFromStart(id, sent, agentOverrides, talk);
      told, left, sent := Converse(server, id, script, taken, sent);
    }

    /** The body of the try block. */
    method Handle(server: TaskStore, id: string, task: TaskRow, decision: StartDecision, adapters: set<string>,
                  defaultAgent: string, script: Script, ghost taken: Tables)
      returns (ending: Ending, started: Option<string>, ghost told: seq<UserDecision>, ghost left: seq<LocalReport>,
               ghost sent: seq<TaskReport>)
      requires server.db.Snapshot() == taken
      requires id in taken.tasks && taken.tasks[id] == task && task.status == Claimed
      modifies this, server.db
      ensures Course(ending, sent, started, told, left, agentOverrides)
           == CourseOf(old(agentOverrides), id, task, decision, adapters, defaultAgent, script)
      ensures server.db.Snapshot() == ReportAll(taken, id, sent)
      ensures Others(id) == old(Others(id))
    {
      started, told, left := None, [], [];
      ghost var course := CourseByCases(agentOverrides, id, task, decision, adapters, defaultAgent, script);
      var cleared;
      cleared, sent := Clear(server, id, decision, script.answers(0), taken, course.sent);
      if !cleared {
        return Returned, None, [], [], sent;
      }
      var agent := AgentFor(agentOverrides, id, task, adapters, defaultAgent);
      if agent !in adapters {
        return Threw, None, [], [], sent;
      }
      started, told, left, sent := RunAgent(server, id, agent, adapters, script, taken, sent);
      ending := Returned;
    }
  }

  lemma Unchanged<K, V>(m: map<K, V>, k: K, v: V)
    ensures m[k := v] - {k} == m - {k}
    ensures m - {k} - {k} == m - {k}
  {}

  /** The agent to start: the user's choice, else the task's, if there is an adapter for it; else the default. */
  function AgentFor(overrides: map<string, string>, id: string, task: TaskRow, adapters: set<string>,
                    defaultAgent: string): string
  {
    var requested := if id in overrides then Some(overrides[id]) else task.agent;
    if requested.Some? && requested.value != "" && requested.value in adapters then requested.value else defaultAgent
  }

  function Instruction(t: Tables, id: string): string
    requires id in t.tasks
  {
    if t.tasks[id].payloadRef in t.payloads then t.payloads[t.tasks[id].payloadRef] else ""
  }

  /** What the user has picked by the time the agent is chosen. */
  function ChoicesAtStart(overrides: map<string, string>, id: string, decision: StartDecision, script: Script)
    : map<string, string>
  {
    if decision.verdict == Ask then WithChoices(overrides, id, script.answers(0).choices) else overrides
  }

  /**
    * How a claimed task is processed: the ending, the reports sent, the adapter started, the
    * decisions told to the agent, the reports of it that nobody consumed, and the agent choices
    * the worker holds afterwards.
    */
  datatype Course = Course(ending: Ending, sent: seq<TaskReport>, started: Option<string>, told: seq<UserDecision>,
                           left: seq<LocalReport>, overrides: map<string, string>)

  function CourseOf(overrides: map<string, string>, id: string, task: TaskRow, decision: StartDecision,
                    adapters: set<string>, defaultAgent: string, script: Script): Course
  {
    var agent := AgentFor(ChoicesAtStart(overrides, id, decision, script), id, task, adapters, defaultAgent);
    var cleared := Cleared(decision, script.answers(0));
    var talk := if cleared && agent in adapters then TalkOf([], script.arrivals, script.answers, 1) else TalkEnd([]);
    Course(if cleared && agent !in adapters then Threw else Returned,
           Plan(decision, agent in adapters, script),
           if cleared && agent in adapters then Some(agent) else None,
           talk.told, talk.left,
           WithChoices(overrides, id, SessionChoices(decision, agent in adapters, script)))
  }

  /**
    * Which adapter a cleared session starts: the one for the agent chosen last in its own approval,
    * else for one chosen before, else for the task's, when the name is not empty and has an
    * adapter; else the default one. Without an adapter for that it throws.
    */
  lemma AdapterTells(overrides: map<string, string>, id: string, task: TaskRow, decision: StartDecision,
                     adapters: set<string>, defaultAgent: string, script: Script)
    ensures var course := CourseOf(overrides, id, task, decision, adapters, defaultAgent, script);
      var answer := script.answers(0);
      var wanted := if decision.verdict == Ask && answer.choices != [] then Some(answer.choices[|answer.choices| - 1])
                    else if id in overrides then Some(overrides[id]) else task.agent;
      var name := if wanted.Some? && wanted.value != "" && wanted.value in adapters then wanted.value else defaultAgent;
      if decision.verdict == Deny || (decision.verdict == Ask && answer.decision == Refuse)
      then course.ending == Returned && course.started == None
      else if name in adapters then course.ending == Returned && course.started == Some(name)
      else course.ending == Threw && course.started == None
  {}

  /** What the store is told up to the decision to start, in the words of the approval gate. */
  lemma GateReports(overrides: map<string, string>, id: string, task: TaskRow, policy: ApprovalPolicy,
                    instruction: string, adapters: set<string>, defaultAgent: string, script: Script)
    ensures var decision := EvaluateApproval(policy, task, instruction);
      var sent := CourseOf(overrides, id, task, decision, adapters, defaultAgent, script).sent;
      match decision.verdict
      case Deny => sent == [RejectedReport("지시 내용이 비어 있다")]
      case Allow => sent == [] || sent[0] == StartedReport
      case Ask =>
        && sent != [] && sent[0] == WaitingReport(decision.question.value)
        && (script.answers(0).decision == Refuse ==> sent[1..] == [RejectedReport("사용자가 시작을 승인하지 않았다")])
        && (script.answers(0).decision == Approve ==> |sent| == 1 || sent[1] == StartedReport)
  {
    GateTells(policy, task, instruction);
  }

  /** The course as the code takes its branches, and that the table accepts its reports. */
  lemma CourseByCases(overrides: map<string, string>, id: string, task: TaskRow, decision: StartDecision,
                      adapters: set<string>, defaultAgent: string, script: Script)
    returns (course: Course)
    ensures course == CourseOf(overrides, id, task, decision, adapters, defaultAgent, script)
    ensures StatusAfter(Claimed, course.sent).Some? && Opening(decision, script.answers(0)) <= course.sent
    ensures var chosen := WithChoices(overrides, id, if decision.verdict == Ask then script.answers(0).choices else []);
      var opening, agent := Opening(decision, script.answers(0)), AgentFor(chosen, id, task, adapters, defaultAgent);
      course ==
      if !Cleared(decision, script.answers(0)) then Course(Returned, opening, None, [], [], chosen)
      else if agent !in adapters then Course(Threw, opening, None, [], [], chosen)
      else
        var talk := TalkOf([], script.arrivals, script.answers, 1);
        Course(Returned, opening + ([StartedReport] + talk.reports), Some(agent), talk.told, talk.left,
               WithChoices(chosen, id, talk.choices))
  {
    course := CourseOf(overrides, id, task, decision, adapters, defaultAgent, script);
    var asked := if decision.verdict == Ask then script.answers(0).choices else [];
    var chosen := WithChoices(overrides, id, asked);
    var known := AgentFor(chosen, id, task, adapters, defaultAgent) in adapters;
    PlanAccepted(decision, known, script);
    assert Opening(decision, script.answers(0)) + [] == Opening(decision, script.answers(0));
    ChoicesJoin(overrides, id, asked, TalkChoices([], script.arrivals, script.answers, 1));
    assert asked + [] == asked;
  }

  /** What a course leaves behind when nobody else touches the task. */
  lemma CourseOutcome(t: Tables, overrides: map<string, string>, id: string, decision: StartDecision,
                      adapters: set<string>, defaultAgent: string, script: Script)
    requires id in t.tasks && t.tasks[id].status == Claimed
    ensures var course := CourseOf(overrides, id, t.tasks[id], decision, adapters, defaultAgent, script);
      var u := ReportAll(t, id, course.sent);
      && u.tasks.Keys == t.tasks.Keys
      && (forall other <- t.tasks :: other != id ==> u.tasks[other] == t.tasks[other])
      && (course.started.Some? ==>
            u.tasks[id].status == EndOf(LastWord([], script.arrivals, script.answers, 1)))
      && (course.started.None? && course.ending == Returned ==> u.tasks[id].status == Rejected)
      && (course.ending == Threw ==> u.tasks[id].status == if decision.verdict == Ask then Waiting else Claimed)
  {
    var course := CourseOf(overrides, id, t.tasks[id], decision, adapters, defaultAgent, script);
    var agent := AgentFor(ChoicesAtStart(overrides, id, decision, script), id, t.tasks[id], adapters, defaultAgent);
    PlanAccepted(decision, agent in adapters, script);
    ReportAllEffect(t, id, course.sent);
  }

  lemma StartedIsReported(overrides: map<string, string>, id: string, task: TaskRow, decision: StartDecision,
                          adapters: set<string>, defaultAgent: string, script: Script)
    ensures var course := CourseOf(overrides, id, task, decision, adapters, defaultAgent, script);
      course.started.Some? <==> StartedReport in course.sent
  {
    var course := CourseOf(overrides, id, task, decision, adapters, defaultAgent, script);
    if course.started.Some? {
      assert course.sent[|Opening(decision, script.answers(0))|] == StartedReport;
    }
  }

  /**
    * With the approval gate an adapter is started exactly for an instruction that is not blank,
    * when the policy exempts the task or the user approves, given that the agent chosen has an
    * adapter; and exactly when the started report is sent.
    */
  lemma StartIsGuarded(overrides: map<string, string>, id: string, task: TaskRow, policy: ApprovalPolicy,
                       instruction: string, adapters: set<string>, defaultAgent: string, script: Script)
    ensures var course := CourseOf(overrides, id, task, EvaluateApproval(policy, task, instruction),
                                   adapters, defaultAgent, script);
      && (course.started.Some? <==> StartedReport in course.sent)
      && (course.started.Some? ==> course.started.value in adapters)
      && (course.started.Some? <==>
            && (exists i :: 0 <= i < |instruction| && !IsSpace(instruction[i]))
            && (|| !policy.requireApproval || task.channelId in policy.autoPassChannels
                || task.labelName in policy.autoPassLabels || script.answers(0).decision == Approve)
            && AgentFor(ChoicesAtStart(overrides, id, EvaluateApproval(policy, task, instruction), script), id, task,
                        adapters, defaultAgent) in adapters)
  {
    var decision := EvaluateApproval(policy, task, instruction);
    GateTells(policy, task, instruction);
    StartedIsReported(overrides, id, task, decision, adapters, defaultAgent, script);
  }

  /** An agent name the registry knows. */
  predicate Usable(agent: string, adapters: set<string>) {
    agent != "" && agent in adapters
  }

  /**
    * When a choice left over from earlier makes a session start another adapter: nothing is
    * chosen in its own approval, and the leftover differs from what the task's agent comes to,
    * or is itself unusable and hides a usable one.
    */
  predicate LeftoverDecides(leftover: string, task: TaskRow, decision: StartDecision,
                            adapters: set<string>, defaultAgent: string, script: Script)
  {
    && Cleared(decision, script.answers(0))
    && (decision.verdict == Ask ==> script.answers(0).choices == [])
    && var own := task.agent.Some? && Usable(task.agent.value, adapters);
       if Usable(leftover, adapters) then leftover != (if own then task.agent.value else defaultAgent)
       else own && task.agent.value != defaultAgent
  }

  /** A leftover choice changes the adapter started exactly under that condition. */
  lemma LeftoverChangesStart(overrides: map<string, string>, id: string, task: TaskRow, decision: StartDecision,
                             adapters: set<string>, defaultAgent: string, script: Script)
    ensures CourseOf(overrides, id, task, decision, adapters, defaultAgent, script).started
         != CourseOf(overrides - {id}, id, task, decision, adapters, defaultAgent, script).started
        <==> id in overrides && LeftoverDecides(overrides[id], task, decision, adapters, defaultAgent, script)
  {
    if decision.verdict == Ask && script.answers(0).choices != [] {
      assert id in ChoicesAtStart(overrides - {id}, id, decision, script);
    }
  }

  /** One session of a task: what the gate says, the task's row, the registry and what happens. */
  datatype SessionInput = SessionInput(task: TaskRow, decision: StartDecision, adapters: set<string>,
                                       defaultAgent: string, script: Script)

  function CourseIn(overrides: map<string, string>, id: string, s: SessionInput): Course {
    CourseOf(overrides, id, s.task, s.decision, s.adapters, s.defaultAgent, s.script)
  }

  /** Whether the agent chosen in the end is known, so that an adapter can be started. */
  predicate AgentKnown(overrides: map<string, string>, id: string, s: SessionInput) {
    AgentFor(ChoicesAtStart(overrides, id, s.decision, s.script), id, s.task, s.adapters, s.defaultAgent) in s.adapters
  }

  /**
    * Two sessions of one task, the first from a worker that holds no choice for it. The second
    * starts another adapter than it would have on its own exactly when the user chose in some
    * approval of the first and the last such choice decides.
    */
  lemma ChoiceOutlivesSession(overrides: map<string, string>, id: string, first: SessionInput, second: SessionInput)
    requires id !in overrides
    ensures var choices := SessionChoices(first.decision, AgentKnown(overrides, id, first), first.script);
      var after := CourseIn(overrides, id, first).overrides;
      CourseIn(after, id, second).started != CourseIn(overrides, id, second).started
      <==> choices != [] && LeftoverDecides(choices[|choices| - 1], second.task, second.decision,
                                            second.adapters, second.defaultAgent, second.script)
  {
    var choices := SessionChoices(first.decision, AgentKnown(overrides, id, first), first.script);
    var after := CourseIn(overrides, id, first).overrides;
    ChoiceForgotten(overrides, id, choices);
    LeftoverChangesStart(after, id, second.task, second.decision, second.adapters, second.defaultAgent, second.script);
  }

  lemma ChoiceForgotten(overrides: map<string, string>, id: string, choices: seq<string>)
    requires id !in overrides
    ensures var after := WithChoices(overrides, id, choices);
      && after - {id} == overrides && (id in after <==> choices != [])
      && (choices != [] ==> after[id] == choices[|choices| - 1])
  {}

  datatype Bookkeeping = Bookkeeping(queues: map<string, ReportQueue>, currentTasks: map<string, Phase>,
                                     pendingApprovals: map<string, string>,
                                     approvalResolvers: map<string, Option<UserDecision>>,
                                     agentOverrides: map<string, string>)
}
