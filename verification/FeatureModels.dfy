/**
 The durable state of a feature workflow (src/gca/session.py, src/gca/orchestrator.py): the parent session with one
 record for each agent run, and what every saved state satisfies.
 */
module FeatureModels {
  import opened Wrappers
  import opened Text
  import opened AgentSystem
  import opened Usage

  datatype Phase = Planning | Implementation | Review

  datatype Record = Record(
    phase: Phase, model: string, messages: seq<Message>, status: Status, steps: nat, finalMessage: string,
      inflight: string)

  datatype Parent = Parent(
    task: string,
    status: Status,
    phase: Phase,
    reviewCycles: nat,
    maxReviewCycles: nat,
    bindings: map<Phase, string>,
    artifacts: map<string, string>,
    runs: seq<Record>,
    steps: nat,
    activeModel: string,
    usage: Totals,
    finalMessage: string)

  // ---------------------------------------------------------------- records

  function StepSum(runs: seq<Record>): nat {
    if runs == [] then 0 else StepSum(runs[..|runs| - 1]) + runs[|runs| - 1].steps
  }

  /** The phases of the runs that have not failed. */
  function Kept(runs: seq<Record>): seq<Phase> {
    if runs == [] then []
    else
      var last := runs[|runs| - 1];
      Kept(runs[..|runs| - 1]) + if last.status == FAILED then [] else [last.phase]
  }

  /** The arguments of the last `finish` call of a conversation. */
  function FinishIn(calls: seq<ToolCall>): Option<map<string, string>> {
    if calls == [] then None
    else if calls[|calls| - 1].name == "finish" then Some(calls[|calls| - 1].arguments)
    else FinishIn(calls[..|calls| - 1])
  }

  function FinishArguments(messages: seq<Message>): map<string, string> {
    if messages == [] then map[]
    else
      var last := messages[|messages| - 1];
      var found := if last.Assistant? then FinishIn(last.calls) else None;
      if found.Some? then found.value else FinishArguments(messages[..|messages| - 1])
  }

  /** No call of a message is a finish call. */
  predicate NoFinish(message: Message) {
    message.Assistant? ==> forall call | call in message.calls :: call.name != "finish"
  }

  lemma {:induction false} LastFinish(calls: seq<ToolCall>, k: nat)
    requires k < |calls| && calls[k].name == "finish"
    requires forall i | k < i < |calls| :: calls[i].name != "finish"
    ensures FinishIn(calls) == Some(calls[k].arguments)
  {
    if k < |calls| - 1 {
      LastFinish(calls[..|calls| - 1], k);
    }
  }

  lemma {:induction false} NoFinishIn(calls: seq<ToolCall>)
    requires forall call | call in calls :: call.name != "finish"
    ensures FinishIn(calls) == None
  {
    if calls != [] {
      assert calls[|calls| - 1] in calls;
      NoFinishIn(calls[..|calls| - 1]);
    }
  }

  /** The arguments are those of the last finish call of the last message that has one; with none there are none. */
  lemma {:induction false} LastArguments(messages: seq<Message>, m: nat, k: nat)
    requires m <= |messages| && forall i | m < i < |messages| :: NoFinish(messages[i])
    requires m < |messages| ==>
               && messages[m].Assistant? && k < |messages[m].calls| && messages[m].calls[k].name == "finish"
               && forall i | k < i < |messages[m].calls| :: messages[m].calls[i].name != "finish"
    requires m == |messages| ==> forall i | 0 <= i < |messages| :: NoFinish(messages[i])
    ensures FinishArguments(messages) == if m < |messages| then messages[m].calls[k].arguments else map[]
  {
    if messages != [] {
      var n := |messages| - 1;
      var last := messages[n];
      if m == n {
        LastFinish(last.calls, k);
      } else {
        assert NoFinish(last);
        if last.Assistant? {
          NoFinishIn(last.calls);
        }
        LastArguments(messages[..n], if m < n then m else n, k);
      }
    }
  }

  function Argument(messages: seq<Message>, name: string, otherwise: string): string {
    var arguments := FinishArguments(messages);
    if name in arguments then arguments[name] else otherwise
  }

  function Artifact(artifacts: map<string, string>, name: string): string {
    if name in artifacts then artifacts[name] else ""
  }

  // ---------------------------------------------------------------- the order of phases

  /** Planning, implementation, review, and then implementation and review again for each rework cycle. */
  function Scheduled(i: nat): Phase {
    if i == 0 then Planning else if i % 2 == 1 then Implementation else Review
  }

  function Schedule(n: nat): seq<Phase> {
    if n == 0 then [] else Schedule(n - 1) + [Scheduled(n - 1)]
  }

  /** The place of the current phase in the schedule. */
  function Place(p: Parent): nat {
    match p.phase
    case Planning => 0
    case Implementation => 1 + 2 * p.reviewCycles
    case Review => 2 + 2 * p.reviewCycles
  }

  /** The last run belongs to the current phase and has not failed. */
  predicate Current(p: Parent) {
    p.runs != [] && p.runs[|p.runs| - 1].phase == p.phase && p.runs[|p.runs| - 1].status != FAILED
  }

  predicate Settled(r: Record) {
    r.status == COMPLETED || r.status == FAILED
  }

  predicate TurnsCounted(r: Record) {
    r.steps == Turns(r.messages)
  }

  /** An approved review with a summary. */
  predicate Approves(r: Record) {
    && r.phase == Review && r.status == COMPLETED
    && Argument(r.messages, "verdict", "") == "approved"
    && Strip(Argument(r.messages, "summary", "")) != ""
  }

  // ---------------------------------------------------------------- how a completed run ends its phase

  /** Nothing to hand on: the argument of the finish call is blank, or it is missing and so is another word. */
  predicate Missing(messages: seq<Message>, name: string, otherwise: string) {
    Strip(Argument(messages, name, otherwise)) == ""
  }

  predicate Requests(r: Record) {
    Argument(r.messages, "verdict", "") == "changes_requested" && !Missing(r.messages, "summary", "")
  }

  /** A completed run that fails its phase: no plan, no summary, no verdict, or changes requested once too often. */
  predicate Disappoints(p: Parent, r: Record) {
    match p.phase
    case Planning => Missing(r.messages, "plan", r.finalMessage)
    case Implementation => Missing(r.messages, "summary", r.finalMessage)
    case Review => !Approves(r) && (Requests(r) ==> p.reviewCycles >= p.maxReviewCycles)
  }

  /** What a workflow says when a completed run fails its phase. */
  function Complaint(p: Parent, r: Record): string {
    match p.phase
    case Planning => "planning agent returned no plan"
    case Implementation => "implementation agent returned no summary"
    case Review =>
      var verdict, summary := Argument(r.messages, "verdict", ""), Strip(Argument(r.messages, "summary", ""));
      if verdict != "approved" && verdict != "changes_requested" then
        "review agent did not return a structured verdict"
      else if summary == "" then "review agent returned an empty review summary"
      else "review still requested changes after " + Decimal(p.maxReviewCycles) + " rework cycles: " + summary
  }

  /** A workflow stops only for a reason that its last run or its budget gives, and says which. */
  predicate EndsProperly(p: Parent, maxSteps: nat) {
    match p.status
    case ACTIVE => false
    case COMPLETED =>
      && Current(p) && Approves(p.runs[|p.runs| - 1])
      && p.finalMessage == Strip(Argument(p.runs[|p.runs| - 1].messages, "summary", ""))
    case PAUSED =>
      || (p.steps >= maxSteps && p.finalMessage == "Step budget exhausted.")
      || (&& Current(p) && p.runs[|p.runs| - 1].status == PAUSED
          && p.finalMessage == p.runs[|p.runs| - 1].finalMessage)
    case FAILED =>
      && p.runs != [] && p.runs[|p.runs| - 1].phase == p.phase
      && var last := p.runs[|p.runs| - 1];
         || (last.status == FAILED && p.finalMessage == last.finalMessage)
         || (last.status == COMPLETED && Disappoints(p, last) && p.finalMessage == Complaint(p, last))
  }

  // ---------------------------------------------------------------- what every saved state satisfies

  /** The phases run so far are the schedule up to the current phase, which may have its run already. */
  predicate OnSchedule(p: Parent) {
    && (p.phase == Planning ==> p.reviewCycles == 0)
    && p.reviewCycles <= p.maxReviewCycles
    && Kept(p.runs) == Schedule(Place(p) + if Current(p) then 1 else 0)
  }

  predicate Durable(p: Parent) {
    && OnSchedule(p)
    && p.steps == StepSum(p.runs)
    && (forall r | r in p.runs :: TurnsCounted(r))
    && (forall i | 0 <= i < |p.runs| - 1 :: Settled(p.runs[i]))
    && (p.runs != [] && !Current(p) ==> Settled(p.runs[|p.runs| - 1]))
    && Planning in p.bindings && Implementation in p.bindings && Review in p.bindings
    && (Current(p) ==> p.runs[|p.runs| - 1].model == p.bindings[p.phase])
    && (p.phase == Review ==> Strip(Artifact(p.artifacts, "implementation")) != "")
    && (p.status == COMPLETED ==> Current(p) && Approves(p.runs[|p.runs| - 1]))
  }

  lemma {:induction false} ScheduleAt(n: nat, i: nat)
    requires i < n
    ensures |Schedule(n)| == n && Schedule(n)[i] == Scheduled(i)
  {
    if i < n - 1 {
      ScheduleAt(n - 1, i);
    } else if n > 1 {
      ScheduleAt(n - 1, 0);
    }
  }

  /**
   The runs of any saved state that have not failed: planning first, then implementation and review by turns, and
   never more than one review for each rework cycle and the first one.
   */
  lemma PhaseOrder(p: Parent, i: nat)
    requires Durable(p) && i < |Kept(p.runs)|
    ensures Kept(p.runs)[i] == if i == 0 then Planning else if i % 2 == 1 then Implementation else Review
    ensures |Kept(p.runs)| <= 3 + 2 * p.maxReviewCycles && p.reviewCycles <= p.maxReviewCycles
  {
    hide Kept, StepSum, TurnsCounted, Approves, Strip, Schedule;
    var n := Place(p) + if Current(p) then 1 else 0;
    if n > 0 {
      ScheduleAt(n, 0);
    } else {
      EmptySchedule();
    }
    ScheduleAt(n, i);
  }

  lemma EmptySchedule()
    ensures Schedule(0) == []
  {
  }
}
