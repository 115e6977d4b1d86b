/** The steps of the agent loop, and what every run keeps however often it crashes and is resumed. */
module AgentRuns {
  import opened Wrappers
  import opened AgentSystem

  const FINISH := "finish"
  const HOSTED_CONTROL := {"finish", "changes_ready", "needs_human", "no_safe_change", "fail_turn"}

  /** Where a run stands between two steps; `rest` holds the calls of the current batch still to be done. */
  datatype Pc =
    | Idle
    | Top
    | Batch(rest: seq<ToolCall>)
    | Marked(rest: seq<ToolCall>)
    | Started(rest: seq<ToolCall>)
    | Ran(rest: seq<ToolCall>, result: ToolResult)
    | Noted(rest: seq<ToolCall>, stop: bool)

  /** `effects` are the ids of the calls whose tools were executed, `asked` the histories given to the model. */
  datatype System = System(
    mem: Session, disk: Session, pc: Pc, limit: nat, effects: seq<string>, asked: seq<seq<Message>>)

  datatype Step =
    | Begin(limit: nat)
    | Look
    | Ask(response: Response)
    | Mark
    | Save
    | Act(result: ToolResult)
    | Note
    | Crash

  function Interrupted(s: Session): Session {
    s.(status := FAILED,
       finalMessage := "Tool call '" + s.inflight + "' was interrupted; its side effects are unknown.")
  }

  function Exhausted(s: Session): Session {
    s.(status := PAUSED, finalMessage := "Step budget exhausted.")
  }

  function Told(s: Session, r: Response): Session {
    s.(messages := s.messages + [Assistant(r.content, r.calls)], steps := s.steps + 1,
       status := if r.calls == [] then COMPLETED else s.status,
       finalMessage := if r.calls == [] then r.content else s.finalMessage)
  }

  /** Does this result of this call end the run? */
  predicate Stops(call: ToolCall, r: ToolResult) {
    r.fatal || (call.name in HOSTED_CONTROL && r.ok)
  }

  function EndStatus(call: ToolCall, r: ToolResult): Status {
    if r.fatal then FAILED
    else if call.name == "fail_turn" then FAILED
    else if call.name == "needs_human" then PAUSED
    else COMPLETED
  }

  /** The session with the answer to a call. */
  function Replied(s: Session, call: ToolCall, r: ToolResult): Session {
    var noted := s.(messages := s.messages + [Answer(call.id, r.output)], inflight := "");
    if Stops(call, r) then noted.(status := EndStatus(call, r), finalMessage := r.output) else noted
  }

  /** The model names its calls with new, distinct, non-empty ids. */
  predicate Fresh(messages: seq<Message>, calls: seq<ToolCall>) {
    DistinctIds(Calls(messages) + calls)
  }

  predicate Enabled(s: System, step: Step) {
    match step
    case Begin(_) => s.pc.Idle?
    case Look => s.pc.Top? && (Pending(s.mem.messages) != [] || s.mem.steps >= s.limit)
    case Ask(r) => s.pc.Top? && Pending(s.mem.messages) == [] && s.mem.steps < s.limit && Fresh(s.mem.messages, r.calls)
    case Mark => s.pc.Batch? && s.pc.rest != []
    case Save => s.pc.Marked? || s.pc.Noted?
    case Act(_) => s.pc.Started? && s.pc.rest != []
    case Note => s.pc.Ran? && s.pc.rest != []
    case Crash => true
  }

  function Next(s: System, step: Step): System
    requires Enabled(s, step)
  {
    match step
    case Begin(limit) =>
      var loaded := s.(mem := s.disk, limit := limit);
      if s.disk.status in {COMPLETED, FAILED} then loaded
      else if s.disk.inflight != "" then loaded.(mem := Interrupted(s.disk), pc := Noted([], true))
      else loaded.(mem := s.disk.(status := ACTIVE), pc := Top)
    case Look =>
      if Pending(s.mem.messages) != [] then s.(pc := Batch(Pending(s.mem.messages)))
      else s.(mem := Exhausted(s.mem), pc := Noted([], true))
    case Ask(r) =>
      s.(mem := Told(s.mem, r), asked := s.asked + [s.mem.messages], pc := Noted([], r.calls == []))
    case Mark => s.(mem := s.mem.(inflight := s.pc.rest[0].id), pc := Marked(s.pc.rest))
    case Save =>
      var saved := s.(disk := s.mem);
      if s.pc.Marked? then saved.(pc := Started(s.pc.rest))
      else saved.(pc := if s.pc.stop then Idle else if s.pc.rest == [] then Top else Batch(s.pc.rest))
    case Act(result) =>
      s.(effects := s.effects + (if result.ran then [s.pc.rest[0].id] else []), pc := Ran(s.pc.rest, result))
    case Note =>
      s.(mem := Replied(s.mem, s.pc.rest[0], s.pc.result),
        pc := Noted(s.pc.rest[1..], Stops(s.pc.rest[0], s.pc.result)))
    case Crash => s.(mem := s.disk, pc := Idle)
  }

  /** A step that is not enabled does nothing. */
  function Do(s: System, step: Step): System {
    if Enabled(s, step) then Next(s, step) else s
  }

  function Reached(s: System, steps: seq<Step>): System {
    if steps == [] then s else Do(Reached(s, steps[..|steps| - 1]), steps[|steps| - 1])
  }

  /** A new session holds its prompt only. */
  function Initial(prompt: seq<Message>): System {
    var session := Session(prompt, ACTIVE, 0, "", "");
    System(session, session, Idle, 0, [], [])
  }

  predicate IsPrompt(prompt: seq<Message>) {
    forall message | message in prompt :: message.Prompt?
  }

  // ---------------------------------------------------------------- the invariant

  predicate Distinct(ids: seq<string>) {
    forall i, j | 0 <= i < j < |ids| :: ids[i] != ids[j]
  }

  /** Every executed call is answered on disk or marked there as in flight. */
  predicate Accounted(effects: seq<string>, disk: Session) {
    forall id | id in effects :: id != "" && (id in Answered(disk.messages) || id == disk.inflight)
  }

  /** A conversation whose calls are all answered, one block after the other. */
  predicate Whole(prompt: seq<Message>, history: seq<Message>) {
    prompt <= history && Scan(history[|prompt|..]) == Some([])
  }

  predicate Sound(prompt: seq<Message>, s: Session, most: nat) {
    Shaped(prompt, s.messages) && s.steps == Turns(s.messages) && s.steps <= most
  }

  /** `m` is `d` with one more message, which answers the call in flight or opens a block. */
  predicate OneMore(m: Session, d: Session) {
    && m.messages != [] && m.messages[..|m.messages| - 1] == d.messages && m.inflight == ""
    && match m.messages[|m.messages| - 1]
       case Answer(id, _) => id == d.inflight
       case Assistant(_, _) => d.inflight == ""
       case Prompt(_) => false
  }

  /** How memory and disk differ at each place of a run. */
  predicate Synced(s: System) {
    match s.pc
    case Idle => s.mem == s.disk
    case Top => s.mem.messages == s.disk.messages && s.mem.inflight == s.disk.inflight == ""
    case Batch(rest) =>
      s.mem.messages == s.disk.messages && s.mem.inflight == s.disk.inflight == "" && rest == Pending(s.mem.messages)
    case Marked(rest) =>
      && s.mem.messages == s.disk.messages && s.disk.inflight == ""
      && rest == Pending(s.mem.messages) && rest != [] && s.mem.inflight == rest[0].id
    case Started(rest) =>
      s.mem == s.disk && rest == Pending(s.mem.messages) && rest != [] && s.disk.inflight == rest[0].id
      && rest[0].id !in s.effects
    case Ran(rest, _) =>
      s.mem == s.disk && rest == Pending(s.mem.messages) && rest != [] && s.disk.inflight == rest[0].id
    case Noted(rest, stop) =>
      || (stop && s.mem.messages == s.disk.messages && s.mem.inflight == s.disk.inflight)
      || (OneMore(s.mem, s.disk) && (!stop && rest != [] ==> rest == Pending(s.mem.messages)))
  }

  ghost predicate Inv(prompt: seq<Message>, most: nat, s: System) {
    && Sound(prompt, s.mem, most) && Sound(prompt, s.disk, most)
    && Synced(s)
    && Distinct(s.effects) && Accounted(s.effects, s.disk)
    && (!s.pc.Idle? ==> s.limit <= most)
    && forall history | history in s.asked :: Whole(prompt, history)
  }

  predicate Within(steps: seq<Step>, most: nat) {
    forall step | step in steps :: step.Begin? ==> step.limit <= most
  }

  // ---------------------------------------------------------------- growing a conversation

  lemma Grow(prompt: seq<Message>, messages: seq<Message>, m: Message)
    requires prompt <= messages
    ensures var more := messages + [m];
            && prompt <= more && more[|prompt|..] == messages[|prompt|..] + [m]
            && more[..|more| - 1] == messages && more[|more| - 1] == m
            && Scan(messages[|prompt|..] + [m]) ==
               (match m
                case Prompt(_) => None
                case Assistant(_, calls) => if Scan(messages[|prompt|..]) == Some([]) then Some(calls) else None
                case Answer(id, _) =>
                  var open := Scan(messages[|prompt|..]);
                  if open.Some? && open.value != [] && open.value[0].id == id then Some(open.value[1..]) else None)
  {
    var body := messages[|prompt|..];
    assert (body + [m])[..|body + [m]| - 1] == body;
  }

  lemma GrowCounts(messages: seq<Message>, m: Message)
    ensures Calls(messages + [m]) == Calls(messages) + if m.Assistant? then m.calls else []
    ensures Answered(messages + [m]) == Answered(messages) + if m.Answer? then {m.id} else {}
    ensures Turns(messages + [m]) == Turns(messages) + if m.Assistant? then 1 else 0
  {
    var more := messages + [m];
    assert more[..|more| - 1] == messages;
  }

  lemma GrowByTurn(prompt: seq<Message>, messages: seq<Message>, r: Response)
    requires Shaped(prompt, messages) && Pending(messages) == [] && Fresh(messages, r.calls)
    ensures var more := messages + [Assistant(r.content, r.calls)];
            Shaped(prompt, more) && Turns(more) == Turns(messages) + 1
    ensures Whole(prompt, messages)
  {
    PendingIsOpen(prompt, messages);
    Grow(prompt, messages, Assistant(r.content, r.calls));
    GrowCounts(messages, Assistant(r.content, r.calls));
    hide Scan, Calls, Answered, Turns, Pending, DistinctIds;
  }

  lemma GrowByAnswer(prompt: seq<Message>, messages: seq<Message>, output: string)
    requires Shaped(prompt, messages) && Pending(messages) != []
    ensures var more := messages + [Answer(Pending(messages)[0].id, output)];
            && Shaped(prompt, more) && Pending(more) == Pending(messages)[1..]
            && Turns(more) == Turns(messages)
  {
    var m := Answer(Pending(messages)[0].id, output);
    PendingIsOpen(prompt, messages);
    Grow(prompt, messages, m);
    GrowCounts(messages, m);
    assert Calls(messages) + [] == Calls(messages);
    hide Scan, Calls, Answered, Turns, Pending, DistinctIds;
    assert Shaped(prompt, messages + [m]);
    PendingIsOpen(prompt, messages + [m]);
  }

  lemma {:induction false} UnansweredIsOpen(calls: seq<ToolCall>, answered: set<string>)
    ensures forall call | call in Unanswered(calls, answered) :: call in calls && call.id !in answered
  {
    if calls != [] {
      UnansweredIsOpen(calls[1..], answered);
    }
  }

  /** A pending call has a name of its own and no answer. */
  lemma PendingCall(prompt: seq<Message>, messages: seq<Message>)
    requires Shaped(prompt, messages)
    ensures forall call | call in Pending(messages) :: call.id != "" && call.id !in Answered(messages)
  {
    UnansweredIsOpen(Calls(messages), Answered(messages));
  }

  // ---------------------------------------------------------------- every step keeps the invariant

  lemma BeginKeeps(prompt: seq<Message>, most: nat, s: System, limit: nat)
    requires Inv(prompt, most, s) && Enabled(s, Begin(limit)) && limit <= most
    ensures Inv(prompt, most, Next(s, Begin(limit)))
  {
    hide Shaped, Turns, Answered, Pending;
  }

  lemma LookKeeps(prompt: seq<Message>, most: nat, s: System)
    requires Inv(prompt, most, s) && Enabled(s, Look)
    ensures Inv(prompt, most, Next(s, Look))
  {
    hide Shaped, Turns, Answered, Pending;
  }

  lemma AskKeeps(prompt: seq<Message>, most: nat, s: System, r: Response)
    requires Inv(prompt, most, s) && Enabled(s, Ask(r))
    ensures Inv(prompt, most, Next(s, Ask(r)))
  {
    hide Sound, Pending, Accounted, OneMore, Whole, Fresh, Told;
    ToldIsSound(prompt, most, s.mem, s.limit, r);
    ToldIsOneMore(s.mem, s.disk, r);
  }

  lemma ToldIsSound(prompt: seq<Message>, most: nat, m: Session, limit: nat, r: Response)
    requires Sound(prompt, m, most) && Pending(m.messages) == [] && Fresh(m.messages, r.calls)
    requires m.steps < limit <= most
    ensures Sound(prompt, Told(m, r), most) && Whole(prompt, m.messages)
  {
    GrowByTurn(prompt, m.messages, r);
    hide Shaped, Turns, Pending, Fresh, Whole;
  }

  lemma ToldIsOneMore(m: Session, d: Session, r: Response)
    requires m.messages == d.messages && m.inflight == d.inflight == ""
    ensures OneMore(Told(m, r), d)
  {
    assert Told(m, r).messages[..|m.messages|] == m.messages;
  }

  lemma MarkKeeps(prompt: seq<Message>, most: nat, s: System)
    requires Inv(prompt, most, s) && Enabled(s, Mark)
    ensures Inv(prompt, most, Next(s, Mark))
  {
    hide Shaped, Turns, Answered, Pending;
  }

  lemma SaveMarkKeeps(prompt: seq<Message>, most: nat, s: System)
    requires Inv(prompt, most, s) && s.pc.Marked?
    ensures Inv(prompt, most, Next(s, Save))
  {
    PendingCall(prompt, s.mem.messages);
    hide Shaped, Turns, Answered, Pending;
    assert s.pc.rest[0] in s.pc.rest;
  }

  /** Saving one more message keeps every effect accounted for. */
  lemma OneMoreAccounts(effects: seq<string>, m: Session, d: Session)
    requires OneMore(m, d) && Accounted(effects, d)
    ensures Accounted(effects, m)
  {
    var last := m.messages[|m.messages| - 1];
    assert m.messages == d.messages + [last];
    GrowCounts(d.messages, last);
    hide Calls, Answered, Turns;
  }

  lemma SameAccounts(effects: seq<string>, m: Session, d: Session)
    requires m.messages == d.messages && m.inflight == d.inflight && Accounted(effects, d)
    ensures Accounted(effects, m)
  {
  }

  lemma SaveNoteKeeps(prompt: seq<Message>, most: nat, s: System)
    requires Inv(prompt, most, s) && s.pc.Noted?
    ensures Inv(prompt, most, Next(s, Save))
  {
    assert OneMore(s.mem, s.disk) ==> s.mem.inflight == "";
    hide Sound, Pending, Accounted, OneMore, Whole;
    if OneMore(s.mem, s.disk) {
      OneMoreAccounts(s.effects, s.mem, s.disk);
    } else {
      SameAccounts(s.effects, s.mem, s.disk);
    }
  }

  lemma ActKeeps(prompt: seq<Message>, most: nat, s: System, result: ToolResult)
    requires Inv(prompt, most, s) && Enabled(s, Act(result))
    ensures Inv(prompt, most, Next(s, Act(result)))
  {
    PendingCall(prompt, s.mem.messages);
    hide Shaped, Turns, Answered, Pending;
    assert s.pc.rest[0] in s.pc.rest;
  }

  lemma RepliedIsSound(prompt: seq<Message>, most: nat, m: Session, call: ToolCall, r: ToolResult)
    requires Sound(prompt, m, most) && Pending(m.messages) != [] && call == Pending(m.messages)[0]
    ensures Sound(prompt, Replied(m, call, r), most)
    ensures Pending(Replied(m, call, r).messages) == Pending(m.messages)[1..]
  {
    GrowByAnswer(prompt, m.messages, r.output);
    hide Shaped, Turns, Pending, Stops, EndStatus;
  }

  lemma RepliedUnmarks(m: Session, id: string, call: ToolCall, r: ToolResult)
    ensures Replied(m.(inflight := id), call, r) == Replied(m, call, r)
  {
  }

  lemma RepliedIsOneMore(m: Session, call: ToolCall, r: ToolResult)
    requires m.inflight == call.id
    ensures OneMore(Replied(m, call, r), m)
  {
    hide Stops, EndStatus;
    assert Replied(m, call, r).messages[..|m.messages|] == m.messages;
  }

  lemma NoteKeeps(prompt: seq<Message>, most: nat, s: System)
    requires Inv(prompt, most, s) && Enabled(s, Note)
    ensures Inv(prompt, most, Next(s, Note))
  {
    hide Sound, Pending, Accounted, OneMore, Whole, Stops, Replied;
    RepliedIsSound(prompt, most, s.mem, s.pc.rest[0], s.pc.result);
    RepliedIsOneMore(s.mem, s.pc.rest[0], s.pc.result);
  }

  lemma StepKeeps(prompt: seq<Message>, most: nat, s: System, step: Step)
    requires Inv(prompt, most, s) && (step.Begin? ==> step.limit <= most)
    ensures Inv(prompt, most, Do(s, step))
  {
    if Enabled(s, step) {
      match step
      case Begin(limit) => BeginKeeps(prompt, most, s, limit);
      case Look => LookKeeps(prompt, most, s);
      case Ask(r) => AskKeeps(prompt, most, s, r);
      case Mark => MarkKeeps(prompt, most, s);
      case Save =>
        if s.pc.Marked? {
          SaveMarkKeeps(prompt, most, s);
        } else {
          SaveNoteKeeps(prompt, most, s);
        }
      case Act(result) => ActKeeps(prompt, most, s, result);
      case Note => NoteKeeps(prompt, most, s);
      case Crash =>
        hide Shaped, Turns, Answered, Pending;
    }
  }

  lemma {:induction false} RunKeeps(prompt: seq<Message>, most: nat, steps: seq<Step>)
    requires IsPrompt(prompt) && Within(steps, most)
    ensures Inv(prompt, most, Reached(Initial(prompt), steps))
  {
    if steps == [] {
      assert prompt[|prompt|..] == [];
      assert prompt + [] == prompt;
      PromptIsSilent(prompt, []);
    } else {
      var n := |steps| - 1;
      assert steps[n] in steps && forall step | step in steps[..n] :: step in steps;
      RunKeeps(prompt, most, steps[..n]);
      hide Inv, Do, Initial;
      StepKeeps(prompt, most, Reached(Initial(prompt), steps[..n]), steps[n]);
    }
  }

  // ---------------------------------------------------------------- what every run guarantees

  /**
   At most once: over any run with any crashes, no call is executed twice, and every executed call is answered on
   disk or marked there as in flight.  So none of the calls a resumed run will make has been executed.
   */
  lemma ExecutedOnce(prompt: seq<Message>, most: nat, steps: seq<Step>)
    requires IsPrompt(prompt) && Within(steps, most)
    ensures var s := Reached(Initial(prompt), steps);
            && Distinct(s.effects)
            && (forall id | id in s.effects :: id in Answered(s.disk.messages) || id == s.disk.inflight)
            && (s.disk.inflight == "" ==> forall call | call in Pending(s.disk.messages) :: call.id !in s.effects)
  {
    RunKeeps(prompt, most, steps);
    var s := Reached(Initial(prompt), steps);
    PendingCall(prompt, s.disk.messages);
    hide Shaped, Turns, Answered, Pending, Synced, Whole;
  }

  /**
   Every history given to the model is its prompt and whole blocks: an assistant message, then all its answers in
   order.
   */
  lemma HistoriesAreBlocks(prompt: seq<Message>, most: nat, steps: seq<Step>, history: seq<Message>)
    returns (blocks: seq<Block>)
    requires IsPrompt(prompt) && Within(steps, most)
    requires history in Reached(Initial(prompt), steps).asked
    ensures Blocks(blocks) && (forall b | b in blocks :: Full(b)) && history == prompt + Layout(blocks)
  {
    RunKeeps(prompt, most, steps);
    assert Whole(prompt, history) by {
      hide Sound, Synced, Accounted, Distinct;
    }
    blocks := ScansAsBlocks(history[|prompt|..]);
    if blocks != [] {
      var last := blocks[|blocks| - 1];
      assert last in blocks && OpenCalls(blocks) == last.calls[|last.outputs|..];
      assert Full(last);
      forall b | b in blocks
        ensures Full(b)
      {
        var i :| 0 <= i < |blocks| && blocks[i] == b;
      }
    }
  }

  /** The step counter is the number of assistant messages, and stays within the largest limit of any run. */
  lemma StepsAreTurns(prompt: seq<Message>, most: nat, steps: seq<Step>)
    requires IsPrompt(prompt) && Within(steps, most)
    ensures var s := Reached(Initial(prompt), steps);
            s.mem.steps == Turns(s.mem.messages) <= most && s.disk.steps == Turns(s.disk.messages) <= most
  {
    RunKeeps(prompt, most, steps);
    hide Shaped, Turns, Synced, Accounted, Distinct, Whole;
  }

  /** A crash loses at most the last message. */
  lemma LosesAtMostOne(prompt: seq<Message>, most: nat, steps: seq<Step>)
    requires IsPrompt(prompt) && Within(steps, most)
    ensures var s := Reached(Initial(prompt), steps);
            || s.disk.messages == s.mem.messages
            || (s.mem.messages != [] && s.disk.messages == s.mem.messages[..|s.mem.messages| - 1])
  {
    RunKeeps(prompt, most, steps);
    hide Sound, Pending, Accounted, Distinct, Whole;
  }

  predicate Ended(s: System) {
    s.pc.Idle? && s.disk.status in {COMPLETED, FAILED} && s.mem == s.disk
  }

  /** A session that completed or failed is never asked, executed or changed again. */
  lemma {:induction false} EndedStays(s: System, steps: seq<Step>)
    requires Ended(s)
    ensures var t := Reached(s, steps);
            Ended(t) && t.disk == s.disk && t.effects == s.effects && t.asked == s.asked
  {
    if steps != [] {
      EndedStays(s, steps[..|steps| - 1]);
    }
  }

  predicate MarkedOnDisk(s: System, id: string) {
    s.disk.inflight == id && id != "" && (s.pc.Idle? || (s.pc == Noted([], true) && s.mem == Interrupted(s.disk)))
  }

  /** After a crash with a call in flight the session can only fail: nothing is asked or executed any more. */
  lemma {:induction false} InterruptedFails(s: System, id: string, steps: seq<Step>)
    requires MarkedOnDisk(s, id)
    ensures var t := Reached(s, steps);
            && MarkedOnDisk(t, id) && t.effects == s.effects && t.asked == s.asked
            && t.disk.messages == s.disk.messages
            && t.disk.status in {s.disk.status, FAILED}
  {
    if steps != [] {
      var n := |steps| - 1;
      InterruptedFails(s, id, steps[..n]);
      var t := Reached(s, steps[..n]);
      hide Reached, Pending, Interrupted;
      assert Interrupted(t.disk).inflight == id && Interrupted(t.disk).messages == t.disk.messages
             && Interrupted(t.disk).status == FAILED && Interrupted(Interrupted(t.disk)) == Interrupted(t.disk) by {
        InterruptedFacts(t.disk);
      }
    }
  }

  lemma InterruptedFacts(s: Session)
    ensures Interrupted(s).inflight == s.inflight && Interrupted(s).messages == s.messages
    ensures Interrupted(s).status == FAILED && Interrupted(Interrupted(s)) == Interrupted(s)
  {
  }

  // ---------------------------------------------------------------- what a run saves

  /** The sessions a run has saved so far, all active, while it stands at `now` steps. */
  predicate SavedSoFar(from: Session, limit: nat, saves: seq<Session>, now: nat) {
    && from.steps <= now && (now <= from.steps || now <= limit)
    && (forall s | s in saves :: s.status == ACTIVE && s.steps == Turns(s.messages) && from.steps <= s.steps <= now)
    && forall i, j | 0 <= i <= j < |saves| :: saves[i].steps <= saves[j].steps
  }

  /** The sessions a whole run has saved: active ones, with growing step counts within the limit, and then its end. */
  predicate SavesOf(from: Session, limit: nat, saves: seq<Session>) {
    && saves != []
    && var end := saves[|saves| - 1];
       && end.status != ACTIVE && end.steps == Turns(end.messages)
       && SavedSoFar(from, limit, saves[..|saves| - 1], end.steps)
  }

  lemma SaveOne(from: Session, limit: nat, saves: seq<Session>, s: Session)
    requires SavedSoFar(from, limit, saves, s.steps) && s.steps == Turns(s.messages)
    ensures s.status == ACTIVE ==> SavedSoFar(from, limit, saves + [s], s.steps)
    ensures s.status != ACTIVE ==> SavesOf(from, limit, saves + [s])
  {
    var more := saves + [s];
    assert more[..|saves|] == saves;
    hide Turns;
    forall i, j | 0 <= i <= j < |more|
      ensures more[i].steps <= more[j].steps
    {
      assert more[i] in more;
    }
  }

  lemma LaterStep(from: Session, limit: nat, saves: seq<Session>, now: nat)
    requires SavedSoFar(from, limit, saves, now) && now < limit
    ensures SavedSoFar(from, limit, saves, now + 1)
  {
  }
}
