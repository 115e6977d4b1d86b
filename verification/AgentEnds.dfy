/**
 How a run of the agent ends, tool by tool: which result of which call is the last one, with which status, and what
 else can end it (src/gca/agent.py, lines 90-204, and src/gca/tools/control.py).
 */
module AgentEnds {
  import opened Wrappers
  import opened AgentSystem
  import opened AgentRuns
  import opened AgentOutcome

  /** The session saved at `k` marks a call as in flight. */
  predicate Marks(saves: seq<Session>, k: nat, call: ToolCall) {
    k < |saves| && call in Calls(saves[k].messages) && call.id == saves[k].inflight
  }

  /**
   The next save has the answer.  A fatal result fails the run, `fail_turn` fails it, `needs_human` pauses it, and
   `finish`, `changes_ready` and `no_safe_change` complete it, each if its tool accepts; then that save is the last,
   with the output as final message.  After any other result the run goes on.
   */
  predicate Carried(saves: seq<Session>, k: nat, call: ToolCall, r: ToolResult) {
    && k + 1 < |saves|
    && var marked, next := saves[k], saves[k + 1];
    && next.messages == marked.messages + [Answer(call.id, r.output)] && next.inflight == ""
    && next.steps == marked.steps
    && if r.fatal || (r.ok && call.name == "fail_turn") then
         k + 2 == |saves| && next.status == FAILED && next.finalMessage == r.output
       else if r.ok && call.name == "needs_human" then
         k + 2 == |saves| && next.status == PAUSED && next.finalMessage == r.output
       else if r.ok && call.name in {"finish", "changes_ready", "no_safe_change"} then
         k + 2 == |saves| && next.status == COMPLETED && next.finalMessage == r.output
       else next.status == ACTIVE && next.finalMessage == marked.finalMessage
  }

  ghost predicate CallsCarried(saves: seq<Session>, tools: Tools) {
    forall k: nat, call | Marks(saves, k, call) :: Carried(saves, k, call, tools(call))
  }

  predicate AllActive(saves: seq<Session>) {
    forall s | s in saves :: s.status == ACTIVE
  }

  /** Only the last save is not of an active session. */
  predicate Ends(saves: seq<Session>) {
    saves != [] && saves[|saves| - 1].status != ACTIVE && AllActive(saves[..|saves| - 1])
  }

  // ---------------------------------------------------------------- one call, and a batch of them

  lemma SameCall(calls: seq<ToolCall>, a: ToolCall, b: ToolCall)
    requires DistinctIds(calls) && a in calls && b in calls && a.id == b.id
    ensures a == b
  {
  }

  lemma OneCall(s: Session, call: ToolCall, tools: Tools)
    requires s.status == ACTIVE && DistinctIds(Calls(s.messages)) && call in Calls(s.messages)
    ensures var saves := [s.(inflight := call.id), Replied(s, call, tools(call))];
            && CallsCarried(saves, tools)
            && (if Stops(call, tools(call)) then Ends(saves) else AllActive(saves))
  {
    var noted := Replied(s, call, tools(call));
    var saves := [s.(inflight := call.id), noted];
    RepliedCounts(s, call, tools(call));
    assert saves[..1] == [saves[0]];
    assert forall other | other in Calls(noted.messages) :: other.id != "";
    forall k: nat, other | Marks(saves, k, other)
      ensures Carried(saves, k, other, tools(other))
    {
      if k == 0 {
        SameCall(Calls(s.messages), call, other);
        hide Calls, DistinctIds;
      }
    }
    hide Calls, DistinctIds;
  }

  lemma Joined(a: seq<Session>, b: seq<Session>, tools: Tools)
    requires AllActive(a) && CallsCarried(a, tools) && CallsCarried(b, tools)
    ensures CallsCarried(a + b, tools) && (Ends(b) ==> Ends(a + b)) && (AllActive(b) ==> AllActive(a + b))
  {
    var all := a + b;
    forall k: nat, call | Marks(all, k, call)
      ensures Carried(all, k, call, tools(call))
    {
      if k < |a| {
        assert all[k] == a[k];
        assert Marks(a, k, call) && a[k + 1] in a && all[k + 1] == a[k + 1];
      } else {
        assert all[k] == b[k - |a|];
        assert Marks(b, k - |a|, call);
        assert all[k + 1] == b[k - |a| + 1];
      }
    }
    if Ends(b) {
      assert all[..|all| - 1] == a + b[..|b| - 1];
    }
    hide Calls;
  }

  lemma {:induction false} BatchCarried(s: Session, rest: seq<ToolCall>, tools: Tools)
    requires s.status == ACTIVE && DistinctIds(Calls(s.messages))
    requires forall call | call in rest :: call in Calls(s.messages)
    ensures var (saves, stop) := BatchSaves(s, rest, tools);
            CallsCarried(saves, tools) && if stop then Ends(saves) else AllActive(saves)
    decreases |rest|
  {
    if rest != [] {
      hide Calls, Stops, Replied, BatchSaves, CallsCarried, Ends, AllActive, DistinctIds;
      var call := rest[0];
      var noted := Replied(s, call, tools(call));
      BatchStep(s, rest, tools);
      OneCall(s, call, tools);
      RepliedCounts(s, call, tools(call));
      if !Stops(call, tools(call)) {
        BatchCarried(noted, rest[1..], tools);
        Joined([s.(inflight := call.id), noted], BatchSaves(noted, rest[1..], tools).0, tools);
      }
    }
  }

  // ---------------------------------------------------------------- a whole run

  /** What ends a run that no call ends: an answer without calls, or the step budget. */
  ghost predicate EndsOtherwise(prev: Session, last: Session, limit: nat, model: Model) {
    var r := model(prev.messages);
    || (&& prev.steps < limit && r.calls == [] && last.steps == prev.steps + 1
        && last.messages == prev.messages + [Assistant(r.content, [])] && last.inflight == prev.inflight
        && last.status == COMPLETED && last.finalMessage == r.content)
    || (prev.steps >= limit && last == prev.(status := PAUSED, finalMessage := "Step budget exhausted."))
  }

  /** A run ends with a call that ends it, or else with the model's last word or the budget, and nothing is pending. */
  ghost predicate EndsSomehow(s: Session, saves: seq<Session>, limit: nat, model: Model) {
    && saves != []
    && var prev := if |saves| == 1 then s else saves[|saves| - 2];
       || prev.inflight != ""
       || (Pending(prev.messages) == [] && EndsOtherwise(prev, saves[|saves| - 1], limit, model))
  }

  lemma EndsLater(s: Session, mid: Session, saves: seq<Session>, more: seq<Session>, limit: nat, model: Model)
    requires EndsSomehow(mid, more, limit, model) && mid == End(s, saves)
    ensures EndsSomehow(s, saves + more, limit, model)
  {
    hide EndsOtherwise, Pending;
  }

  lemma {:induction false} BatchEndsByCall(s: Session, rest: seq<ToolCall>, tools: Tools, limit: nat, model: Model)
    requires DistinctIds(rest)
    ensures var (saves, stop) := BatchSaves(s, rest, tools);
            && (stop ==> EndsSomehow(s, saves, limit, model))
            && (s.inflight == "" || rest != [] ==> !stop ==> End(s, saves).inflight == "")
    decreases |rest|
  {
    if rest != [] {
      hide Stops, Replied, BatchSaves, Pending, EndsOtherwise, Calls, Answered, Turns;
      var call := rest[0];
      var noted := Replied(s, call, tools(call));
      BatchStep(s, rest, tools);
      RepliedCounts(s, call, tools(call));
      if !Stops(call, tools(call)) {
        BatchEndsByCall(noted, rest[1..], tools, limit, model);
      }
    }
  }

  lemma {:induction false} PendingCalls(calls: seq<ToolCall>, answered: set<string>)
    requires DistinctIds(calls)
    ensures DistinctIds(Unanswered(calls, answered))
    ensures forall call | call in Unanswered(calls, answered) :: call in calls
  {
    if calls != [] {
      var rest := Unanswered(calls[1..], answered);
      PendingCalls(calls[1..], answered);
      forall i, j | 0 <= i < j < |[calls[0]] + rest|
        ensures ([calls[0]] + rest)[i].id != ([calls[0]] + rest)[j].id
      {
        if i == 0 {
          assert rest[j - 1] in calls[1..];
        }
      }
    }
  }

  lemma ToldIsActive(s: Session, r: Response)
    requires s.status == ACTIVE && DistinctIds(Calls(s.messages)) && Fresh(s.messages, r.calls) && s.inflight == ""
    ensures var told := Told(s, r);
            && told.inflight == "" && DistinctIds(Calls(told.messages)) && told.steps == s.steps + 1
            && (if r.calls == [] then Ends([told]) else told.status == ACTIVE && AllActive([told]))
  {
    GrowCounts(s.messages, Assistant(r.content, r.calls));
    hide Calls, Answered, Turns;
    assert [Told(s, r)][..0] == [];
  }

  /** A save without a mark carries no call. */
  lemma Unmarked(s: Session, tools: Tools)
    requires s.inflight == "" && DistinctIds(Calls(s.messages))
    ensures CallsCarried([s], tools)
  {
    hide Calls;
  }

  lemma {:induction false} LoopCarried(s: Session, limit: nat, model: Model, tools: Tools)
    requires s.status == ACTIVE && s.inflight == "" && DistinctIds(Calls(s.messages)) && NamesFresh(model)
    ensures var saves := LoopSaves(s, limit, model, tools);
            CallsCarried(saves, tools) && Ends(saves) && EndsSomehow(s, saves, limit, model)
    decreases if s.steps < limit then limit - s.steps else 0, |Pending(s.messages)|
  {
    hide CallsCarried, Ends, AllActive, EndsSomehow, BatchSaves, LoopSaves, Pending, Told, Calls, NamesFresh, Turns,
      Answered, DistinctIds;
    LoopStep(s, limit, model, tools);
    var calls := Pending(s.messages);
    if calls != [] {
      var (saves, stop) := BatchSaves(s, calls, tools);
      PendingAreCalls(s.messages);
      BatchCarried(s, calls, tools);
      BatchEndsByCall(s, calls, tools, limit, model);
      if !stop {
        BatchEmpties(s, tools);
        BatchAnswers(s, calls, tools);
        LoopCarried(End(s, saves), limit, model, tools);
        Joined(saves, LoopSaves(End(s, saves), limit, model, tools), tools);
        EndsLater(s, End(s, saves), saves, LoopSaves(End(s, saves), limit, model, tools), limit, model);
      }
    } else if s.steps < limit {
      var r := model(s.messages);
      var told := Told(s, r);
      FreshNames(model, s.messages);
      ToldIsActive(s, r);
      Unmarked(told, tools);
      if r.calls != [] {
        LoopCarried(told, limit, model, tools);
        Joined([told], LoopSaves(told, limit, model, tools), tools);
        EndsLater(s, told, [told], LoopSaves(told, limit, model, tools), limit, model);
      } else {
        LastWord(s, limit, model);
      }
    } else {
      OutOfBudget(s, limit, model, tools);
    }
  }

  lemma PendingAreCalls(messages: seq<Message>)
    requires DistinctIds(Calls(messages))
    ensures DistinctIds(Pending(messages)) && forall call | call in Pending(messages) :: call in Calls(messages)
  {
    PendingCalls(Calls(messages), Answered(messages));
    hide Calls, Answered, DistinctIds;
  }

  lemma FreshNames(model: Model, messages: seq<Message>)
    requires NamesFresh(model) && DistinctIds(Calls(messages))
    ensures Fresh(messages, model(messages).calls)
  {
    hide Calls, DistinctIds;
  }

  lemma LastWord(s: Session, limit: nat, model: Model)
    requires s.steps < limit && model(s.messages).calls == [] && Pending(s.messages) == []
    ensures EndsSomehow(s, [Told(s, model(s.messages))], limit, model)
  {
    hide Pending;
  }

  lemma OutOfBudget(s: Session, limit: nat, model: Model, tools: Tools)
    requires s.inflight == "" && DistinctIds(Calls(s.messages)) && s.steps >= limit && Pending(s.messages) == []
    ensures var saves := [Exhausted(s)];
            CallsCarried(saves, tools) && Ends(saves) && EndsSomehow(s, saves, limit, model)
  {
    Unmarked(Exhausted(s), tools);
    assert [Exhausted(s)][..0] == [];
    hide Pending, Calls, DistinctIds, CallsCarried;
  }

  /**
   In a run of an active session each call that is marked is answered by its tool, and the run ends with the first
   call that may end it; it ends otherwise only when nothing is pending, with the model's last word or the budget.
   */
  lemma RunEnds(s: Session, limit: nat, model: Model, tools: Tools)
    requires s.status == ACTIVE && DistinctIds(Calls(s.messages)) && NamesFresh(model)
    ensures var saves := RunSaves(s, limit, model, tools);
            if s.inflight != "" then
              saves == [s.(status := FAILED,
                finalMessage := "Tool call '" + s.inflight + "' was interrupted; its side effects are unknown.")]
            else CallsCarried(saves, tools) && Ends(saves) && EndsSomehow(s, saves, limit, model)
  {
    hide CallsCarried, Ends, EndsSomehow, LoopSaves, Calls, DistinctIds, NamesFresh;
    if s.inflight == "" {
      LoopCarried(s, limit, model, tools);
    }
  }
}
