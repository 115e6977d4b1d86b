/**
 The agent loop as a step system (src/gca/agent.py, lines 90-204): the session in memory, its durable copy, and the
 tool effects of the outside world, with a crash possible between any two steps.

 Saving a session is one step, because `SessionStore.save` writes a temporary file and renames it
 (src/gca/session.py, lines 223-235).
 */
module AgentSystem {
  import opened Wrappers

  datatype ToolCall = ToolCall(id: string, name: string, arguments: map<string, string>)

  /** `Prompt` stands for the system and user messages a run starts from. */
  datatype Message =
    | Prompt(content: string)
    | Assistant(content: string, calls: seq<ToolCall>)
    | Answer(id: string, content: string)

  datatype Status = ACTIVE | COMPLETED | FAILED | PAUSED

  datatype Session = Session(
    messages: seq<Message>, status: Status, steps: nat, inflight: string, finalMessage: string)

  datatype Response = Response(content: string, calls: seq<ToolCall>)

  /** What `_run_tool` reports; `ran` tells whether the tool was executed at all. */
  datatype ToolResult = ToolResult(output: string, ok: bool, fatal: bool, ran: bool)

  // ---------------------------------------------------------------- conversations

  function Calls(messages: seq<Message>): seq<ToolCall> {
    if messages == [] then []
    else
      var last := messages[|messages| - 1];
      Calls(messages[..|messages| - 1]) + if last.Assistant? then last.calls else []
  }

  function Answered(messages: seq<Message>): set<string> {
    if messages == [] then {}
    else
      var last := messages[|messages| - 1];
      Answered(messages[..|messages| - 1]) + if last.Answer? then {last.id} else {}
  }

  function Unanswered(calls: seq<ToolCall>, answered: set<string>): seq<ToolCall> {
    if calls == [] then []
    else (if calls[0].id in answered then [] else [calls[0]]) + Unanswered(calls[1..], answered)
  }

  /** `_pending_tool_calls`: the calls of all assistant messages that no tool message answers. */
  function Pending(messages: seq<Message>): seq<ToolCall> {
    Unanswered(Calls(messages), Answered(messages))
  }

  function Turns(messages: seq<Message>): nat {
    if messages == [] then 0
    else Turns(messages[..|messages| - 1]) + if messages[|messages| - 1].Assistant? then 1 else 0
  }

  /**
   Reads a conversation that follows a prompt, and yields the calls still open at its end.  `None` when an
   assistant speaks before every call is answered, or an answer is not for the first open call.
   */
  function Scan(body: seq<Message>): Option<seq<ToolCall>> {
    if body == [] then Some([])
    else
      var open := Scan(body[..|body| - 1]);
      match body[|body| - 1]
      case Prompt(_) => None
      case Assistant(_, calls) => if open == Some([]) then Some(calls) else None
      case Answer(id, _) =>
        if open.Some? && open.value != [] && open.value[0].id == id then Some(open.value[1..]) else None
  }

  predicate DistinctIds(calls: seq<ToolCall>) {
    && (forall call | call in calls :: call.id != "")
    && forall i, j | 0 <= i < j < |calls| :: calls[i].id != calls[j].id
  }

  /** A conversation that a run of the agent can have written. */
  predicate Shaped(prompt: seq<Message>, messages: seq<Message>) {
    && prompt <= messages
    && (forall message | message in prompt :: message.Prompt?)
    && Scan(messages[|prompt|..]).Some?
    && DistinctIds(Calls(messages))
  }

  // ---------------------------------------------------------------- blocks

  /** One assistant message and the answers to its first calls. */
  datatype Block = Block(content: string, calls: seq<ToolCall>, outputs: seq<string>)

  predicate Full(b: Block) {
    |b.outputs| == |b.calls|
  }

  /** One answer for each output, in the order of the calls. */
  function Answers(calls: seq<ToolCall>, outputs: seq<string>): seq<Message>
    requires |outputs| <= |calls|
  {
    if outputs == [] then []
    else
      var n := |outputs| - 1;
      Answers(calls, outputs[..n]) + [Answer(calls[n].id, outputs[n])]
  }

  /** Only the last block may lack answers. */
  predicate Blocks(blocks: seq<Block>) {
    && (forall b | b in blocks :: |b.outputs| <= |b.calls|)
    && forall i | 0 <= i < |blocks| - 1 :: Full(blocks[i])
  }

  function Layout(blocks: seq<Block>): seq<Message>
    requires forall b | b in blocks :: |b.outputs| <= |b.calls|
  {
    if blocks == [] then []
    else
      var n := |blocks| - 1;
      Layout(blocks[..n]) + [Assistant(blocks[n].content, blocks[n].calls)] +
        Answers(blocks[n].calls, blocks[n].outputs)
  }

  function OpenCalls(blocks: seq<Block>): seq<ToolCall>
    requires Blocks(blocks)
  {
    if blocks == [] then []
    else
      var last := blocks[|blocks| - 1];
      assert last in blocks;
      last.calls[|last.outputs|..]
  }

  lemma OpenBlock(blocks: seq<Block>, content: string, calls: seq<ToolCall>)
    requires Blocks(blocks) && OpenCalls(blocks) == []
    ensures var more := blocks + [Block(content, calls, [])];
            Blocks(more) && Layout(more) == Layout(blocks) + [Assistant(content, calls)] && OpenCalls(more) == calls
  {
    var more := blocks + [Block(content, calls, [])];
    assert more[..|more| - 1] == blocks;
    if blocks != [] {
      assert blocks[|blocks| - 1] in blocks;
    }
  }

  lemma AnswerBlock(blocks: seq<Block>, output: string)
    requires Blocks(blocks) && OpenCalls(blocks) != []
    ensures var n := |blocks| - 1;
            var more := blocks[n := blocks[n].(outputs := blocks[n].outputs + [output])];
            && Blocks(more) && OpenCalls(more) == OpenCalls(blocks)[1..]
            && Layout(more) == Layout(blocks) + [Answer(OpenCalls(blocks)[0].id, output)]
  {
    var n := |blocks| - 1;
    var b := blocks[n];
    var b' := b.(outputs := b.outputs + [output]);
    var more := blocks[n := b'];
    assert more[..n] == blocks[..n] && b in blocks;
    assert b'.outputs[..|b.outputs|] == b.outputs;
    assert Answers(b.calls, b'.outputs) == Answers(b.calls, b.outputs) + [Answer(b.calls[|b.outputs|].id, output)];
    assert Layout(more) == Layout(blocks[..n]) + [Assistant(b.content, b.calls)] + Answers(b.calls, b'.outputs);
  }

  /** Every conversation that scans is a sequence of blocks, of which only the last may have open calls. */
  lemma {:induction false} ScansAsBlocks(body: seq<Message>) returns (blocks: seq<Block>)
    requires Scan(body).Some?
    ensures Blocks(blocks) && Layout(blocks) == body && Scan(body) == Some(OpenCalls(blocks))
  {
    if body == [] {
      blocks := [];
    } else {
      var front, message := body[..|body| - 1], body[|body| - 1];
      assert body == front + [message];
      blocks := ScansAsBlocks(front);
      hide Layout, Blocks, OpenCalls;
      if message.Assistant? {
        OpenBlock(blocks, message.content, message.calls);
        blocks := blocks + [Block(message.content, message.calls, [])];
      } else {
        AnswerBlock(blocks, message.content);
        var n := |blocks| - 1;
        blocks := blocks[n := blocks[n].(outputs := blocks[n].outputs + [message.content])];
      }
    }
  }

  // ---------------------------------------------------------------- what is pending

  function Ids(calls: seq<ToolCall>): set<string> {
    set call | call in calls :: call.id
  }

  /** `open` are the last of `calls`, and `answered` names exactly the others. */
  predicate Divided(calls: seq<ToolCall>, answered: set<string>, open: seq<ToolCall>) {
    |open| <= |calls| && open == calls[|calls| - |open|..] && answered == Ids(calls[..|calls| - |open|])
  }

  lemma DividedMore(calls: seq<ToolCall>, answered: set<string>, more: seq<ToolCall>)
    requires Divided(calls, answered, [])
    ensures Divided(calls + more, answered, more)
  {
    assert calls[..|calls|] == calls && (calls + more)[..|calls|] == calls;
  }

  lemma DividedNext(calls: seq<ToolCall>, answered: set<string>, open: seq<ToolCall>)
    requires Divided(calls, answered, open) && open != []
    ensures Divided(calls, answered + {open[0].id}, open[1..])
  {
    var k := |calls| - |open|;
    assert calls[..k + 1] == calls[..k] + [calls[k]] && calls[k] == open[0];
  }

  lemma {:induction false} OpenIsSuffix(body: seq<Message>)
    requires Scan(body).Some?
    ensures Divided(Calls(body), Answered(body), Scan(body).value)
  {
    hide Divided;
    if body == [] {
      assert Divided([], {}, []) by { NothingDivided(); }
    } else {
      var front, message := body[..|body| - 1], body[|body| - 1];
      OpenIsSuffix(front);
      var calls := Calls(front);
      if message.Assistant? {
        DividedMore(calls, Answered(front), message.calls);
        assert Answered(front) + {} == Answered(front);
      } else {
        DividedNext(calls, Answered(front), Scan(front).value);
        assert calls + [] == calls;
      }
    }
  }

  lemma NothingDivided()
    ensures Divided([], {}, [])
  {
  }

  lemma {:induction false} UnansweredJoins(a: seq<ToolCall>, b: seq<ToolCall>, answered: set<string>)
    ensures Unanswered(a + b, answered) == Unanswered(a, answered) + Unanswered(b, answered)
  {
    if a == [] {
      assert a + b == b;
    } else {
      assert (a + b)[1..] == a[1..] + b;
      UnansweredJoins(a[1..], b, answered);
    }
  }

  lemma {:induction false} NoneLeft(calls: seq<ToolCall>, answered: set<string>)
    requires forall call | call in calls :: call.id in answered
    ensures Unanswered(calls, answered) == []
  {
    if calls != [] {
      NoneLeft(calls[1..], answered);
    }
  }

  lemma {:induction false} AllLeft(calls: seq<ToolCall>, answered: set<string>)
    requires forall call | call in calls :: call.id !in answered
    ensures Unanswered(calls, answered) == calls
  {
    if calls != [] {
      AllLeft(calls[1..], answered);
    }
  }

  lemma SuffixIsNew(calls: seq<ToolCall>, k: nat)
    requires k <= |calls| && DistinctIds(calls)
    ensures forall call | call in calls[k..] :: call.id !in Ids(calls[..k])
  {
    forall call | call in calls[k..]
      ensures call.id !in Ids(calls[..k])
    {
      var j :| k <= j < |calls| && calls[j] == call;
      forall i | 0 <= i < k
        ensures calls[..k][i].id != call.id
      {
        assert calls[i].id != calls[j].id;
      }
    }
  }

  lemma UnansweredSuffix(calls: seq<ToolCall>, k: nat)
    requires k <= |calls| && DistinctIds(calls)
    ensures Unanswered(calls, Ids(calls[..k])) == calls[k..]
  {
    hide Unanswered, DistinctIds;
    var done, left := calls[..k], calls[k..];
    assert calls == done + left;
    SuffixIsNew(calls, k);
    UnansweredJoins(done, left, Ids(done));
    NoneLeft(done, Ids(done));
    AllLeft(left, Ids(done));
  }

  lemma {:induction false} PromptIsSilent(prompt: seq<Message>, body: seq<Message>)
    requires forall message | message in prompt :: message.Prompt?
    ensures Calls(prompt + body) == Calls(body) && Answered(prompt + body) == Answered(body)
    ensures Turns(prompt + body) == Turns(body)
    decreases |prompt| + |body|
  {
    var all := prompt + body;
    if body != [] {
      var n := |body| - 1;
      assert all[..|all| - 1] == prompt + body[..n];
      PromptIsSilent(prompt, body[..n]);
    } else if prompt != [] {
      var n := |prompt| - 1;
      assert all == prompt && prompt[n] in prompt;
      assert prompt[..n] + [] == prompt[..n];
      PromptIsSilent(prompt[..n], []);
    }
  }

  /** In a well-shaped conversation the pending calls are those of its last block that have no answer yet. */
  lemma PendingIsOpen(prompt: seq<Message>, messages: seq<Message>)
    requires Shaped(prompt, messages)
    ensures Scan(messages[|prompt|..]) == Some(Pending(messages))
  {
    var body := messages[|prompt|..];
    assert messages == prompt + body;
    PromptIsSilent(prompt, body);
    OpenIsSuffix(body);
    var open, calls := Scan(body).value, Calls(body);
    var k := |calls| - |open|;
    UnansweredSuffix(calls, k);
  }
}
