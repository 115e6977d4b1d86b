/**
 The agent itself (src/gca/agent.py): a loop over a session, proved to be a run of the step system, so everything
 the system keeps holds of the agent, its store and the tools it executed.
 */
module AgentLoop {
  import opened Wrappers
  import opened AgentSystem
  import opened AgentRuns
  import opened AgentOutcome
  import opened AgentEnds

  lemma RunMore(s: System, steps: seq<Step>, step: Step)
    ensures Reached(s, steps + [step]) == Do(Reached(s, steps), step)
  {
    assert (steps + [step])[..|steps|] == steps;
  }

  lemma {:induction false} SomeBound(steps: seq<Step>) returns (most: nat)
    ensures Within(steps, most)
  {
    most := 0;
    if steps != [] {
      most := SomeBound(steps[1..]);
      assert forall step | step in steps :: step == steps[0] || step in steps[1..];
      if steps[0].Begin? && steps[0].limit > most {
        most := steps[0].limit;
      }
    }
  }

  lemma InvIsSound(prompt: seq<Message>, most: nat, s: System)
    requires Inv(prompt, most, s)
    ensures Sound(prompt, s.mem, most)
  {
  }

  lemma SoundCounts(prompt: seq<Message>, most: nat, s: Session)
    requires Sound(prompt, s, most)
    ensures s.steps == Turns(s.messages)
  {
  }

  lemma SoundIds(prompt: seq<Message>, most: nat, s: Session)
    requires Sound(prompt, s, most)
    ensures DistinctIds(Calls(s.messages))
  {
  }

  /** The call that ends a run ends its batch, and the last save is where the run ends. */
  lemma StopsHere(was: Session, rest: seq<ToolCall>, tools: Tools, before: seq<Session>, saves: seq<Session>,
                  now: Session, first: seq<Session>, batch: seq<Session>, start: Session)
    requires rest != [] && Stops(rest[0], tools(rest[0])) && now == Replied(was, rest[0], tools(rest[0]))
    requires saves == before + [was.(inflight := rest[0].id)] + [now]
    requires before + BatchSaves(was, rest, tools).0 == first + batch && |first| <= |before|
    ensures saves == first + batch && now == End(start, batch) && BatchSaves(was, rest, tools).1
  {
    hide Stops, Replied;
    assert saves == before + [was.(inflight := rest[0].id), now];
    assert |batch| > 0 && batch[|batch| - 1] == (first + batch)[|first + batch| - 1];
  }

  lemma NoMore(s: Session, tools: Tools)
    ensures BatchSaves(s, [], tools) == ([], false)
  {
  }

  lemma NothingSaved(from: Session, limit: nat)
    ensures SavedSoFar(from, limit, [], from.steps)
  {
  }

  lemma AnswerNext(prompt: seq<Message>, most: nat, s: Session, output: string)
    requires Sound(prompt, s, most) && Pending(s.messages) != []
    ensures Pending(s.messages + [Answer(Pending(s.messages)[0].id, output)]) == Pending(s.messages)[1..]
  {
    GrowByAnswer(prompt, s.messages, output);
  }

  class Agent {
    var messages: seq<Message>
    var status: Status
    var stepCount: nat
    var inflightToolCallId: string
    var finalMessage: string
    /** The session file. */
    var stored: Session

    ghost const prompt: seq<Message>
    ghost var limit: nat
    ghost var effects: seq<string>
    ghost var asked: seq<seq<Message>>
    ghost var history: seq<Step>
    /** The session the last run started from, and what it has saved since. */
    ghost var from: Session
    ghost var saves: seq<Session>

    function Memory(): Session
      reads this
    {
      Session(messages, status, stepCount, inflightToolCallId, finalMessage)
    }

    ghost function Here(pc: Pc): System
      reads this
    {
      System(Memory(), stored, pc, limit, effects, asked)
    }

    /** The agent stands where the step system stands after `history`. */
    ghost predicate At(pc: Pc)
      reads this
    {
      IsPrompt(prompt) && Reached(Initial(prompt), history) == Here(pc)
    }

    constructor (prompt: seq<Message>)
      requires IsPrompt(prompt)
      ensures At(Idle) && Memory() == stored == Session(prompt, ACTIVE, 0, "", "")
      ensures this.prompt == prompt && history == []
    {
      this.prompt := prompt;
      messages, status, stepCount, inflightToolCallId, finalMessage := prompt, ACTIVE, 0, "", "";
      stored := Session(prompt, ACTIVE, 0, "", "");
      limit, effects, asked, history := 0, [], [], [];
      from, saves := Session(prompt, ACTIVE, 0, "", ""), [];
    }

    lemma Keeps(pc: Pc) returns (most: nat)
      requires At(pc)
      ensures Inv(prompt, most, Here(pc))
    {
      most := SomeBound(history);
      RunKeeps(prompt, most, history);
    }

    lemma IdleIsSaved()
      requires At(Idle)
      ensures Memory() == stored
    {
      var most := Keeps(Idle);
      hide Sound, Distinct, Accounted, Whole, Reached;
    }

    lemma OwnIds(pc: Pc)
      requires At(pc)
      ensures DistinctIds(Calls(messages))
    {
      hide Inv, Reached, Calls, DistinctIds;
      var most := Keeps(pc);
      InvIsSound(prompt, most, Here(pc));
      SoundIds(prompt, most, Memory());
    }

    /** A crash loses what is only in memory. */
    method Recover(ghost pc: Pc)
      requires At(pc)
      modifies this
      ensures At(Idle) && Memory() == stored == old(stored) && effects == old(effects)
    {
      messages, status, stepCount := stored.messages, stored.status, stored.steps;
      inflightToolCallId, finalMessage := stored.inflight, stored.finalMessage;
      RunMore(Initial(prompt), history, Crash);
      history := history + [Crash];
    }

    /** Takes a step of the system; the fields follow. */
    ghost method Take(pc: Pc, step: Step)
      requires At(pc)
      modifies this`history
      ensures Reached(Initial(prompt), history) == Do(Here(pc), step)
    {
      RunMore(Initial(prompt), history, step);
      history := history + [step];
    }

    ghost predicate Going()
      reads this
    {
      SavedSoFar(from, limit, saves, stepCount)
    }

    method Persist(ghost pc: Pc)
      requires At(pc) && (pc.Marked? || pc.Noted?) && Going()
      modifies this
      ensures At(Saved(pc))
      ensures Memory() == stored == old(Memory())
      ensures limit == old(limit) && effects == old(effects) && asked == old(asked) && from == old(from)
      ensures if status == ACTIVE then Going() else SavesOf(from, limit, saves)
      ensures saves == old(saves) + [Memory()]
    {
      hide Sound, Turns, Inv, Reached, SavedSoFar, SavesOf;
      ghost var most := Keeps(pc);
      InvIsSound(prompt, most, Here(pc));
      SoundCounts(prompt, most, Memory());
      SaveOne(from, limit, saves, Memory());
      Take(pc, Save);
      stored := Memory();
      saves := saves + [Memory()];
    }

    method Stop(final: Status, message: string, ghost rest: seq<ToolCall>)
      requires IsPrompt(prompt) && Going() && final != ACTIVE
      requires Reached(Initial(prompt), history) ==
               Here(Noted(rest, true)).(mem := Memory().(status := final, finalMessage := message))
      modifies this
      ensures At(Idle) && Memory() == stored == old(Memory()).(status := final, finalMessage := message)
      ensures limit == old(limit) && effects == old(effects) && from == old(from)
      ensures SavesOf(from, limit, saves) && saves == old(saves) + [Memory()]
    {
      hide Reached, SavedSoFar, SavesOf;
      status, finalMessage := final, message;
      Persist(Noted(rest, true));
    }

    /**
     Runs until the session ends, pauses or uses up its steps; it always stops.  What it saves, and so where it ends,
     is what `RunSaves` says of the model and the tools.
     */
    method Run(maxSteps: nat, model: Model, tools: Tools)
      requires At(Idle) && NamesFresh(model)
      modifies this
      ensures At(Idle) && Memory() == stored && status != ACTIVE
      ensures stepCount >= old(stepCount) && (stepCount <= old(stepCount) || stepCount <= maxSteps)
      ensures old(messages) <= messages && old(effects) <= effects
      ensures old(status) in {COMPLETED, FAILED} ==>
                Memory() == old(Memory()) && effects == old(effects) && saves == []
      ensures old(status) !in {COMPLETED, FAILED} ==>
                && saves == RunSaves(old(Memory()).(status := ACTIVE), maxSteps, model, tools)
                && SavesOf(old(Memory()), maxSteps, saves) && Memory() == saves[|saves| - 1]
      ensures old(status) !in {COMPLETED, FAILED} && old(inflightToolCallId) != "" ==>
                status == FAILED && messages == old(messages) && effects == old(effects)
      ensures old(status) !in {COMPLETED, FAILED} && old(inflightToolCallId) == "" ==>
                && CallsCarried(saves, tools) && Ends(saves)
                && EndsSomehow(old(Memory()).(status := ACTIVE), saves, maxSteps, model)
    {
      hide Reached, Pending, NamesFresh, Inv, Do, Initial, SavedSoFar, LoopSaves, CallsCarried, Ends, EndsSomehow,
        Calls, DistinctIds;
      IdleIsSaved();
      OwnIds(Idle);
      Take(Idle, Begin(maxSteps));
      DoBegin(Here(Idle), maxSteps);
      limit, from, saves := maxSteps, Memory(), [];
      NothingSaved(Memory(), maxSteps);
      if status in {COMPLETED, FAILED} {
        return;
      }
      if inflightToolCallId != "" {
        InterruptedFacts(old(Memory()));
        Stop(FAILED, "Tool call '" + inflightToolCallId + "' was interrupted; its side effects are unknown.", []);
        return;
      }
      status := ACTIVE;
      RunEnds(Memory(), maxSteps, model, tools);
      Loop(maxSteps, model, tools);
    }

    method Loop(maxSteps: nat, model: Model, tools: Tools)
      requires At(Top) && status == ACTIVE && limit == maxSteps && Going() && NamesFresh(model)
      modifies this
      ensures At(Idle) && Memory() == stored && status != ACTIVE
      ensures stepCount >= old(stepCount) && (stepCount <= old(stepCount) || stepCount <= maxSteps)
      ensures old(messages) <= messages && old(effects) <= effects
      ensures from == old(from) && SavesOf(from, maxSteps, saves)
      ensures saves == old(saves) + LoopSaves(old(Memory()), maxSteps, model, tools)
      ensures saves != [] && Memory() == saves[|saves| - 1]
    {
      hide Reached, Pending, NamesFresh, Inv, Do, Initial, SavedSoFar, SavesOf, LoopSaves, BatchSaves, Told;
      ghost var whole := saves + LoopSaves(Memory(), maxSteps, model, tools);
      assert Continues(saves, Memory(), maxSteps, model, tools, whole);
      hide Continues;
      while true
        invariant At(Top) && status == ACTIVE && limit == maxSteps && Going() && from == old(from)
        invariant old(messages) <= messages && old(effects) <= effects
        invariant stepCount >= old(stepCount) && (stepCount <= old(stepCount) || stepCount <= maxSteps)
        invariant Continues(saves, Memory(), maxSteps, model, tools, whole)
        decreases if stepCount <= maxSteps then maxSteps - stepCount else 0, |Pending(messages)|
      {
        var calls := Pending(messages);
        DoLook(Here(Top));
        if calls != [] {
          AfterBatch(saves, Memory(), maxSteps, model, tools, whole);
          Take(Top, Look);
          var stop := RunToolCalls(calls, tools);
          if stop {
            return;
          }
          continue;
        }
        AfterTurn(saves, Memory(), maxSteps, model, tools, whole);
        if stepCount >= maxSteps {
          Take(Top, Look);
          Stop(PAUSED, "Step budget exhausted.", []);
          return;
        }
        var stop := Complete(model);
        if stop {
          return;
        }
      }
    }

    /** Asks the model and saves what it says. */
    method Complete(model: Model) returns (stop: bool)
      requires At(Top) && Pending(messages) == [] && stepCount < limit && status == ACTIVE && Going()
               && NamesFresh(model)
      modifies this
      ensures At(if stop then Idle else Top) && status == (if stop then COMPLETED else ACTIVE)
      ensures stop == (model(old(messages)).calls == []) && (stop ==> Memory() == stored)
      ensures Memory() == Told(old(Memory()), model(old(messages))) && saves == old(saves) + [Memory()]
      ensures var r := model(old(messages));
              && messages == old(messages) + [Assistant(r.content, r.calls)] && stepCount == old(stepCount) + 1
              && inflightToolCallId == old(inflightToolCallId)
              && finalMessage == if r.calls == [] then r.content else old(finalMessage)
      ensures old(messages) <= messages
      ensures limit == old(limit) && effects == old(effects) && from == old(from)
      ensures if stop then SavesOf(from, limit, saves) else Going()
    {
      hide Inv;
      ghost var most := Keeps(Top);
      assert DistinctIds(Calls(messages)) by {
        InvIsSound(prompt, most, Here(Top));
        SoundIds(prompt, most, Memory());
      }
      LaterStep(from, limit, saves, stepCount);
      hide Reached, Pending, Fresh, Do, Initial, SavedSoFar, SavesOf;
      var response := model(messages);
      DoAsk(Here(Top), response);
      Take(Top, Ask(response));
      asked := asked + [messages];
      stepCount := stepCount + 1;
      messages := messages + [Assistant(response.content, response.calls)];
      if response.calls == [] {
        Stop(COMPLETED, response.content, []);
        return true;
      }
      Persist(Noted([], false));
      return false;
    }

    /** Marks a call on disk, executes it and takes its answer into memory. */
    method Execute(call: ToolCall, tools: Tools, ghost rest: seq<ToolCall>) returns (result: ToolResult)
      requires At(Batch(rest)) && rest != [] && call == rest[0] && rest == Pending(messages)
      requires status == ACTIVE && Going()
      modifies this
      ensures Reached(Initial(prompt), history) ==
              Here(Noted(rest[1..], Stops(call, result))).(mem := Replied(old(Memory()), call, result))
      ensures result == tools(call) && saves == old(saves) + [old(Memory()).(inflight := call.id)]
      ensures Memory() == old(Memory()).(messages := messages, inflight := "")
      ensures messages == old(messages) + [Answer(call.id, result.output)] && Pending(messages) == rest[1..]
      ensures limit == old(limit) && from == old(from) && old(effects) <= effects && IsPrompt(prompt) && Going()
    {
      hide Sound, Reached, Pending, Inv, Do, Initial, SavedSoFar, SavesOf, Replied, Stops;
      ghost var most := Keeps(Batch(rest));
      InvIsSound(prompt, most, Here(Batch(rest)));
      AnswerNext(prompt, most, Memory(), tools(call).output);
      RepliedUnmarks(Memory(), call.id, call, tools(call));
      Take(Batch(rest), Mark);
      DoMark(Here(Batch(rest)));
      inflightToolCallId := call.id;
      Persist(Marked(rest));

      result := tools(call);
      Take(Started(rest), Act(result));
      DoAct(Here(Started(rest)), result);
      effects := effects + if result.ran then [call.id] else [];

      Take(Ran(rest, result), Note);
      DoNote(Here(Ran(rest, result)));
      messages := messages + [Answer(call.id, result.output)];
      inflightToolCallId := "";
    }

    /** Executes a batch of calls, marking each on disk before its effect and saving its answer after. */
    method RunToolCalls(calls: seq<ToolCall>, tools: Tools) returns (stop: bool)
      requires At(Batch(calls)) && calls == Pending(messages) && calls != [] && status == ACTIVE && Going()
      modifies this
      ensures At(if stop then Idle else Top)
      ensures stop ==> Memory() == stored && status != ACTIVE
      ensures !stop ==> status == ACTIVE && Pending(messages) == []
      ensures stepCount == old(stepCount) && limit == old(limit) && from == old(from)
      ensures if stop then SavesOf(from, limit, saves) else Going()
      ensures old(messages) <= messages && old(effects) <= effects
      ensures (saves, stop) ==
              (old(saves) + BatchSaves(old(Memory()), calls, tools).0, BatchSaves(old(Memory()), calls, tools).1)
      ensures Memory() == End(old(Memory()), BatchSaves(old(Memory()), calls, tools).0)
      ensures saves != [] && Memory() == saves[|saves| - 1]
      ensures var (added, last) := BatchSaves(old(Memory()), calls, tools);
              CallsCarried(added, tools) && if stop then Ends(added) else AllActive(added)
    {
      hide Reached, Pending, Initial, SavedSoFar, SavesOf, BatchSaves, CallsCarried, Ends, AllActive, Calls,
        DistinctIds;
      OwnIds(Batch(calls));
      PendingAreCalls(messages);
      BatchCarried(Memory(), calls, tools);
      NoMore(Memory(), tools);
      for i := 0 to |calls|
        invariant At(if i == |calls| then Top else Batch(calls[i..])) && status == ACTIVE
        invariant Pending(messages) == calls[i..]
        invariant stepCount == old(stepCount) && limit == old(limit) && from == old(from) && Going()
        invariant old(messages) <= messages && old(effects) <= effects
        invariant saves + BatchSaves(Memory(), calls[i..], tools).0 == old(saves) +
                  BatchSaves(old(Memory()), calls, tools).0
        invariant BatchSaves(Memory(), calls[i..], tools).1 == BatchSaves(old(Memory()), calls, tools).1
        invariant |saves| == |old(saves)| + 2 * i && (i > 0 ==> Memory() == saves[|saves| - 1])
      {
        var call := calls[i];
        assert calls[i..][1..] == calls[i + 1..];
        ghost var was, before := Memory(), saves;
        BatchStep(was, calls[i..], tools);
        var result := Execute(call, tools, calls[i..]);
        if result.fatal {
          Stop(FAILED, result.output, calls[i + 1..]);
          StopsHere(was, calls[i..], tools, before, saves, Memory(), old(saves),
            BatchSaves(old(Memory()), calls, tools).0, old(Memory()));
          return true;
        }
        if call.name == FINISH && result.ok {
          Stop(COMPLETED, result.output, calls[i + 1..]);
          StopsHere(was, calls[i..], tools, before, saves, Memory(), old(saves),
            BatchSaves(old(Memory()), calls, tools).0, old(Memory()));
          return true;
        }
        if call.name in HOSTED_CONTROL && result.ok {
          var final := if call.name == "fail_turn" then FAILED else COMPLETED;
          if call.name == "needs_human" {
            final := PAUSED;
          }
          Stop(final, result.output, calls[i + 1..]);
          StopsHere(was, calls[i..], tools, before, saves, Memory(), old(saves),
            BatchSaves(old(Memory()), calls, tools).0, old(Memory()));
          return true;
        }
        Persist(Noted(calls[i + 1..], false));
      }
      NoMore(Memory(), tools);
      assert calls[|calls|..] == [] && saves + [] == saves;
      return false;
    }
  }

  /** Where a run stands after saving. */
  function Saved(pc: Pc): Pc
    requires pc.Marked? || pc.Noted?
  {
    if pc.Marked? then Started(pc.rest)
    else if pc.stop then Idle
    else if pc.rest == [] then Top
    else Batch(pc.rest)
  }

  lemma DoBegin(s: System, limit: nat)
    requires s.pc == Idle && s.mem == s.disk
    ensures var t := Do(s, Begin(limit));
            if s.mem.status in {COMPLETED, FAILED} then t == s.(limit := limit)
            else if s.mem.inflight != "" then
              t == s.(limit := limit, pc := Noted([], true),
                      mem := s.mem.(status := FAILED,
                        finalMessage := "Tool call '" + s.mem.inflight +
                          "' was interrupted; its side effects are unknown."))
            else t == s.(limit := limit, pc := Top, mem := s.mem.(status := ACTIVE))
  {
  }

  lemma DoLook(s: System)
    requires s.pc == Top
    ensures Pending(s.mem.messages) != [] ==> Do(s, Look) == s.(pc := Batch(Pending(s.mem.messages)))
    ensures Pending(s.mem.messages) == [] && s.mem.steps >= s.limit ==>
              Do(s, Look) == s.(pc := Noted([], true),
                mem := s.mem.(status := PAUSED, finalMessage := "Step budget exhausted."))
  {
    hide Pending;
  }

  lemma DoAsk(s: System, r: Response)
    requires s.pc == Top && Pending(s.mem.messages) == [] && s.mem.steps < s.limit && Fresh(s.mem.messages, r.calls)
    ensures Do(s, Ask(r)) ==
            s.(mem := Told(s.mem, r), asked := s.asked + [s.mem.messages], pc := Noted([], r.calls == []))
  {
    hide Pending, Fresh;
  }

  lemma DoMark(s: System)
    requires s.pc.Batch? && s.pc.rest != []
    ensures Do(s, Mark) == s.(mem := s.mem.(inflight := s.pc.rest[0].id), pc := Marked(s.pc.rest))
  {
  }

  lemma DoAct(s: System, result: ToolResult)
    requires s.pc.Started? && s.pc.rest != []
    ensures Do(s, Act(result)) ==
            s.(effects := s.effects + (if result.ran then [s.pc.rest[0].id] else []), pc := Ran(s.pc.rest, result))
  {
  }

  lemma DoNote(s: System)
    requires s.pc.Ran? && s.pc.rest != []
    ensures Do(s, Note) ==
            s.(mem := Replied(s.mem, s.pc.rest[0], s.pc.result),
              pc := Noted(s.pc.rest[1..], Stops(s.pc.rest[0], s.pc.result)))
  {
  }
}
