/**
 The sessions that one run of the agent saves, as a function of the model and the tools (src/gca/agent.py, lines
 90-204).
 */
module AgentOutcome {
  import opened Wrappers
  import opened AgentSystem
  import opened AgentRuns

  type Model = seq<Message> -> Response
  type Tools = ToolCall -> ToolResult

  /** The model names its calls with ids of their own, in every conversation whose ids are sound. */
  ghost predicate NamesFresh(model: Model) {
    forall past | DistinctIds(Calls(past)) :: Fresh(past, model(past).calls)
  }

  function End(s: Session, saves: seq<Session>): Session {
    if saves == [] then s else saves[|saves| - 1]
  }

  /** What a batch of calls saves, two sessions for each call, and whether it ends the run. */
  function BatchSaves(s: Session, rest: seq<ToolCall>, tools: Tools): (seq<Session>, bool)
    decreases |rest|
  {
    if rest == [] then ([], false)
    else
      var call := rest[0];
      var saved := [s.(inflight := call.id), Replied(s, call, tools(call))];
      if Stops(call, tools(call)) then (saved, true)
      else
        var (more, stop) := BatchSaves(saved[1], rest[1..], tools);
        (saved + more, stop)
  }

  function LoopSaves(s: Session, limit: nat, model: Model, tools: Tools): seq<Session>
    decreases if s.steps < limit then limit - s.steps else 0, |Pending(s.messages)|
  {
    var calls := Pending(s.messages);
    if calls != [] then
      var (saves, stop) := BatchSaves(s, calls, tools);
      if stop then saves
      else
        BatchEmpties(s, tools);
        saves + LoopSaves(End(s, saves), limit, model, tools)
    else if s.steps >= limit then [Exhausted(s)]
    else
      var told := Told(s, model(s.messages));
      if model(s.messages).calls == [] then [told] else [told] + LoopSaves(told, limit, model, tools)
  }

  /** A run of an active session; one with a call in flight fails at once. */
  function RunSaves(s: Session, limit: nat, model: Model, tools: Tools): seq<Session> {
    if s.inflight != "" then [Interrupted(s)] else LoopSaves(s, limit, model, tools)
  }

  // ---------------------------------------------------------------- a batch answers its calls

  lemma BatchStep(s: Session, rest: seq<ToolCall>, tools: Tools)
    requires rest != []
    ensures var call := rest[0];
            var marked, noted := s.(inflight := call.id), Replied(s, call, tools(call));
            var (more, stop) := BatchSaves(noted, rest[1..], tools);
            && (Stops(call, tools(call)) ==> BatchSaves(s, rest, tools) == ([marked, noted], true))
            && (!Stops(call, tools(call)) ==>
                  && BatchSaves(s, rest, tools) == ([marked, noted] + more, stop)
                  && End(s, [marked, noted] + more) == End(noted, more))
  {
    hide Stops, Replied;
  }

  lemma RepliedCounts(s: Session, call: ToolCall, r: ToolResult)
    ensures var noted := Replied(s, call, r);
            && noted.steps == s.steps && noted.inflight == "" && Calls(noted.messages) == Calls(s.messages)
            && Turns(noted.messages) == Turns(s.messages)
            && Answered(noted.messages) == Answered(s.messages) + {call.id}
            && (Stops(call, r) ==> noted.status != ACTIVE) && (!Stops(call, r) ==> noted.status == s.status)
  {
    GrowCounts(s.messages, Answer(call.id, r.output));
    assert Calls(s.messages) + [] == Calls(s.messages);
    hide Calls, Answered, Turns, Stops;
  }

  lemma FirstId(rest: seq<ToolCall>)
    requires rest != []
    ensures Ids(rest) == {rest[0].id} + Ids(rest[1..])
  {
    assert rest == [rest[0]] + rest[1..];
  }

  lemma {:induction false} BatchAnswers(s: Session, rest: seq<ToolCall>, tools: Tools)
    ensures var (saves, stop) := BatchSaves(s, rest, tools);
            var end := End(s, saves);
            && end.steps == s.steps && Calls(end.messages) == Calls(s.messages)
              && Turns(end.messages) == Turns(s.messages)
            && (!stop ==> end.status == s.status && Answered(end.messages) == Answered(s.messages) + Ids(rest))
    decreases |rest|
  {
    if rest == [] {
      assert Ids(rest) == {};
    } else {
      hide Calls, Answered, Turns, Stops, Replied, BatchSaves, Ids;
      var call := rest[0];
      BatchStep(s, rest, tools);
      RepliedCounts(s, call, tools(call));
      FirstId(rest);
      if !Stops(call, tools(call)) {
        BatchAnswers(Replied(s, call, tools(call)), rest[1..], tools);
      }
    }
  }

  lemma {:induction false} AnsweredOrPending(calls: seq<ToolCall>, answered: set<string>)
    ensures forall call | call in calls :: call.id in answered || call in Unanswered(calls, answered)
  {
    if calls != [] {
      AnsweredOrPending(calls[1..], answered);
    }
  }

  /** After a whole batch nothing is pending. */
  lemma BatchEmpties(s: Session, tools: Tools)
    ensures var (saves, stop) := BatchSaves(s, Pending(s.messages), tools);
            var end := End(s, saves);
            !stop ==> Pending(end.messages) == [] && end.steps == s.steps
  {
    var calls := Pending(s.messages);
    var (saves, stop) := BatchSaves(s, calls, tools);
    BatchAnswers(s, calls, tools);
    hide BatchSaves;
    AnsweredOrPending(Calls(s.messages), Answered(s.messages));
    if !stop {
      NoneLeft(Calls(s.messages), Answered(End(s, saves).messages));
    }
  }

  // ---------------------------------------------------------------- the sessions are well-formed saves

  lemma CallSavesWell(s: Session, call: ToolCall, limit: nat, r: ToolResult)
    requires s.status == ACTIVE && s.steps == Turns(s.messages)
    ensures var saved := [s.(inflight := call.id), Replied(s, call, r)];
            if Stops(call, r) then SavesOf(s, limit, saved) else SavedSoFar(s, limit, saved, s.steps)
  {
    RepliedCounts(s, call, r);
    hide Turns, Calls, Answered, Stops, Replied;
    var saved := [s.(inflight := call.id), Replied(s, call, r)];
    assert saved[..1] == [s.(inflight := call.id)];
  }

  lemma {:induction false} BatchSavesWell(s: Session, rest: seq<ToolCall>, limit: nat, tools: Tools)
    requires s.status == ACTIVE && s.steps == Turns(s.messages)
    ensures var (saves, stop) := BatchSaves(s, rest, tools);
            if stop then SavesOf(s, limit, saves) else SavedSoFar(s, limit, saves, s.steps)
    decreases |rest|
  {
    if rest != [] {
      hide Turns, Calls, Answered, Stops, Replied, BatchSaves, SavesOf, SavedSoFar;
      var call := rest[0];
      var noted := Replied(s, call, tools(call));
      BatchStep(s, rest, tools);
      RepliedCounts(s, call, tools(call));
      CallSavesWell(s, call, limit, tools(call));
      if !Stops(call, tools(call)) {
        BatchSavesWell(noted, rest[1..], limit, tools);
        var (more, stop) := BatchSaves(noted, rest[1..], tools);
        if stop {
          Prepend(s, noted, limit, [s.(inflight := call.id), noted], more);
        } else {
          PrependSoFar(s, noted, limit, [s.(inflight := call.id), noted], more);
        }
      }
    }
  }

  lemma PrependSoFar(s: Session, mid: Session, limit: nat, saves: seq<Session>, more: seq<Session>)
    requires SavedSoFar(s, limit, saves, mid.steps) && SavedSoFar(mid, limit, more, mid.steps) && mid.steps == s.steps
    ensures SavedSoFar(s, limit, saves + more, s.steps)
  {
    hide Turns;
    Ordered(saves, more, mid.steps);
  }

  lemma Ordered(saves: seq<Session>, more: seq<Session>, mid: nat)
    requires forall i, j | 0 <= i <= j < |saves| :: saves[i].steps <= saves[j].steps
    requires forall i, j | 0 <= i <= j < |more| :: more[i].steps <= more[j].steps
    requires (forall s | s in saves :: s.steps <= mid) && forall s | s in more :: mid <= s.steps
    ensures forall i, j | 0 <= i <= j < |saves + more| :: (saves + more)[i].steps <= (saves + more)[j].steps
  {
    forall i, j | 0 <= i <= j < |saves + more|
      ensures (saves + more)[i].steps <= (saves + more)[j].steps
    {
      if i < |saves| <= j {
        assert saves[i] in saves && more[j - |saves|] in more;
      }
    }
  }

  /** Saves up to some session, and then those of a run from there. */
  lemma Prepend(s: Session, mid: Session, limit: nat, saves: seq<Session>, more: seq<Session>)
    requires SavedSoFar(s, limit, saves, mid.steps) && SavesOf(mid, limit, more)
    ensures SavesOf(s, limit, saves + more)
  {
    hide Turns;
    var all, front := saves + more, more[..|more| - 1];
    assert all[..|all| - 1] == saves + front;
    Ordered(saves, front, mid.steps);
  }

  lemma LoopStep(s: Session, limit: nat, model: Model, tools: Tools)
    ensures var calls, r := Pending(s.messages), model(s.messages);
            var (saves, stop) := BatchSaves(s, calls, tools);
            LoopSaves(s, limit, model, tools) ==
            if calls != [] then
              if stop then saves else saves + LoopSaves(End(s, saves), limit, model, tools)
            else if s.steps >= limit then [Exhausted(s)]
            else if r.calls == [] then [Told(s, r)]
            else [Told(s, r)] + LoopSaves(Told(s, r), limit, model, tools)
  {
    hide Pending, BatchSaves, End, Told, Exhausted;
  }

  lemma EndSavesWell(s: Session, limit: nat, end: Session)
    requires end.status != ACTIVE && end.steps == Turns(end.messages)
    requires s.steps <= end.steps && (end.steps <= s.steps || end.steps <= limit)
    ensures SavesOf(s, limit, [end])
  {
    assert [end][..0] == [];
    hide Turns;
  }

  lemma TurnSavesWell(s: Session, limit: nat, r: Response)
    requires s.status == ACTIVE && s.steps == Turns(s.messages) && s.steps < limit
    ensures var told := Told(s, r);
            && told.steps == s.steps + 1 == Turns(told.messages)
            && if r.calls == [] then SavesOf(s, limit, [told])
               else told.status == ACTIVE && SavedSoFar(s, limit, [told], told.steps)
  {
    GrowCounts(s.messages, Assistant(r.content, r.calls));
    hide Turns, SavesOf, Calls, Answered;
    if r.calls == [] {
      EndSavesWell(s, limit, Told(s, r));
    }
  }

  lemma {:induction false} LoopSavesWell(s: Session, limit: nat, model: Model, tools: Tools)
    requires s.status == ACTIVE && s.steps == Turns(s.messages)
    ensures SavesOf(s, limit, LoopSaves(s, limit, model, tools))
    decreases if s.steps < limit then limit - s.steps else 0, |Pending(s.messages)|
  {
    hide SavesOf, SavedSoFar, BatchSaves, LoopSaves, Pending, Turns, Told;
    LoopStep(s, limit, model, tools);
    var calls := Pending(s.messages);
    if calls != [] {
      var (saves, stop) := BatchSaves(s, calls, tools);
      BatchSavesWell(s, calls, limit, tools);
      if !stop {
        BatchEmpties(s, tools);
        BatchAnswers(s, calls, tools);
        LoopSavesWell(End(s, saves), limit, model, tools);
        Prepend(s, End(s, saves), limit, saves, LoopSaves(End(s, saves), limit, model, tools));
      }
    } else if s.steps < limit {
      var told := Told(s, model(s.messages));
      TurnSavesWell(s, limit, model(s.messages));
      if model(s.messages).calls != [] {
        LoopSavesWell(told, limit, model, tools);
        Prepend(s, told, limit, [told], LoopSaves(told, limit, model, tools));
      }
    } else {
      EndSavesWell(s, limit, Exhausted(s));
    }
  }

  /** Every run from an active session saves active sessions with growing step counts within the limit, and its end. */
  lemma RunSavesWell(s: Session, limit: nat, model: Model, tools: Tools)
    requires s.status == ACTIVE && s.steps == Turns(s.messages)
    ensures SavesOf(s, limit, RunSaves(s, limit, model, tools))
  {
    hide LoopSaves, Turns, SavesOf;
    LoopSavesWell(s, limit, model, tools);
    EndSavesWell(s, limit, Interrupted(s));
  }

  // ---------------------------------------------------------------- half-way through a run

  /** With what is saved already, the rest of the run makes the whole of it. */
  predicate Continues(saves: seq<Session>, s: Session, limit: nat, model: Model, tools: Tools, whole: seq<Session>) {
    saves + LoopSaves(s, limit, model, tools) == whole
  }

  lemma AfterBatch(saves: seq<Session>, s: Session, limit: nat, model: Model, tools: Tools, whole: seq<Session>)
    requires Continues(saves, s, limit, model, tools, whole) && Pending(s.messages) != []
    ensures var (more, stop) := BatchSaves(s, Pending(s.messages), tools);
            if stop then saves + more == whole
            else Continues(saves + more, End(s, more), limit, model, tools, whole)
  {
    LoopStep(s, limit, model, tools);
    hide LoopSaves, Pending, BatchSaves, End;
  }

  lemma AfterTurn(saves: seq<Session>, s: Session, limit: nat, model: Model, tools: Tools, whole: seq<Session>)
    requires Continues(saves, s, limit, model, tools, whole) && Pending(s.messages) == []
    ensures s.steps >= limit ==> saves + [Exhausted(s)] == whole
    ensures s.steps < limit ==>
              var told := Told(s, model(s.messages));
              if model(s.messages).calls == [] then saves + [told] == whole
              else Continues(saves + [told], told, limit, model, tools, whole)
  {
    LoopStep(s, limit, model, tools);
    hide LoopSaves, Pending, Told, Exhausted;
  }

  // ---------------------------------------------------------------- such models exist

  function AllIds(calls: seq<ToolCall>): string {
    if calls == [] then "#" else calls[0].id + AllIds(calls[1..])
  }

  lemma {:induction false} LongerThanAll(calls: seq<ToolCall>)
    ensures AllIds(calls) != "" && forall call | call in calls :: |call.id| < |AllIds(calls)|
  {
    if calls != [] {
      LongerThanAll(calls[1..]);
    }
  }

  /** A model that always calls some tool, under a name longer than every name so far. */
  function Chatter(tool: string): Model {
    (past: seq<Message>) => Response("", [ToolCall(AllIds(Calls(past)), tool, map[])])
  }

  lemma ChatterNamesFresh(tool: string)
    ensures NamesFresh(Chatter(tool))
  {
    forall past | DistinctIds(Calls(past))
      ensures Fresh(past, Chatter(tool)(past).calls)
    {
      LongerThanAll(Calls(past));
      hide Calls, AllIds;
    }
  }
}
