/** The `/chat` conversation loop of the agent service: the conversation is
    seeded with the user's message and the registry's tools; each round asks
    the provider for a response and either answers (stop reason
    "end_turn"), runs the requested tools and goes round again ("tool_use"),
    or gives up on any other stop reason. One round is the pure function
    `Step`; the loop, unbounded in the source, is `Converse` with a fuel
    bound. */
module AgentLoop {
  import opened Basics
  import Json
  import Llm
  import ToolExecutor

  const NoResponse := "No response"
  const ChatFailed := "Failed to process chat request"
  const UnexpectedPrefix := "Unexpected stop reason: "
  const ErrorPrefix := "Error: "

  /** The tools offered to the provider: one per registry definition, in
      the registry's order, with name, description and schema copied. */
  function OfferedTools(reg: ToolExecutor.Registry): (tools: seq<Llm.Tool>)
    requires ToolExecutor.Valid(reg)
    ensures var defs := ToolExecutor.GetToolDefinitions(reg);
      && |tools| == |defs|
      && forall i :: 0 <= i < |defs| ==>
           tools[i] == Llm.Tool(defs[i].name, defs[i].description, defs[i].inputSchema)
  {
    var defs := ToolExecutor.GetToolDefinitions(reg);
    seq(|defs|, i requires 0 <= i < |defs| => Llm.Tool(defs[i].name, defs[i].description, defs[i].inputSchema))
  }

  /** The provider is offered exactly the registered tools, each once. */
  lemma OfferedToolsAreRegistered(reg: ToolExecutor.Registry)
    requires ToolExecutor.Valid(reg)
    ensures var tools := OfferedTools(reg);
      && (forall n :: ToolExecutor.HasTool(reg, n) <==> exists i :: 0 <= i < |tools| && tools[i].name == n)
      && (forall i, j :: 0 <= i < j < |tools| ==> tools[i].name != tools[j].name)
  {
    var tools := OfferedTools(reg);
    var defs := ToolExecutor.GetToolDefinitions(reg);
    forall n
      ensures ToolExecutor.HasTool(reg, n) <==> exists i :: 0 <= i < |tools| && tools[i].name == n
    {
      if ToolExecutor.HasTool(reg, n) {
        var i :| 0 <= i < |defs| && defs[i].name == n;
        assert tools[i].name == n;
      }
    }
  }

  /** The conversation a chat request starts with: the request text as the
      one user message. */
  function Seed(text: string): (messages: seq<Llm.Message>)
    ensures |messages| == 1 && messages[0].role == "user" && messages[0].content == Llm.Plain(text)
  {
    [Llm.Message("user", Llm.Plain(text))]
  }

  /** The answer to an "end_turn" response: the text of the first block of
      type "text", or "No response" when there is no such block or its text
      is null. */
  function AnswerText(content: seq<Llm.ContentBlock>): string
  {
    if |content| == 0 then NoResponse
    else if content[0].blockType == Some("text") then content[0].text.GetOr(NoResponse)
    else AnswerText(content[1..])
  }

  /** The answer is taken from the first text block, whatever follows it,
      and is "No response" when no block is a text block. */
  lemma {:induction false} AnswerIsFirstText(content: seq<Llm.ContentBlock>)
    ensures (forall i :: 0 <= i < |content| ==> content[i].blockType != Some("text")) ==> AnswerText(content) == NoResponse
    ensures forall i :: 0 <= i < |content| && content[i].blockType == Some("text")
                        && (forall j :: 0 <= j < i ==> content[j].blockType != Some("text"))
                        ==> AnswerText(content) == content[i].text.GetOr(NoResponse)
  {
    if |content| > 0 && content[0].blockType != Some("text") {
      var rest := content[1..];
      AnswerIsFirstText(rest);
      assert forall i :: 1 <= i < |content| ==> content[i] == rest[i - 1];
    }
  }

  /** A block the loop executes: of type "tool_use", with a name and an
      input. */
  predicate IsCall(b: Llm.ContentBlock) {
    b.blockType == Some("tool_use") && b.toolName.Some? && b.toolInput.Some?
  }

  /** The result of one call: the tool's output on success; on any failure,
      including an unknown tool, the message after "Error: ", flagged as an
      error. It carries the block's id either way. */
  function ResultFor(reg: ToolExecutor.Registry, b: Llm.ContentBlock): (p: Llm.Part)
    requires IsCall(b)
    ensures p.ToolResult? && p.toolUseId == b.toolUseId
    ensures var out := ToolExecutor.ExecuteTool(reg, b.toolName.value, b.toolInput.value);
      && (p.isError <==> out.Failure?)
      && (out.Success? ==> p.content == out.value)
      && (out.Failure? ==> p.content == ErrorPrefix + out.error)
  {
    match ToolExecutor.ExecuteTool(reg, b.toolName.value, b.toolInput.value)
    case Success(out) => Llm.ToolResult(b.toolUseId, out, false)
    case Failure(message) => Llm.ToolResult(b.toolUseId, ErrorPrefix + message, true)
  }

  /** A call naming a tool that is not registered is answered with the
      registry's not-found message as an error result. */
  lemma UnknownToolIsReported(reg: ToolExecutor.Registry, b: Llm.ContentBlock)
    requires IsCall(b) && !ToolExecutor.HasTool(reg, b.toolName.value)
    ensures ResultFor(reg, b) == Llm.ToolResult(b.toolUseId, ErrorPrefix + ToolExecutor.NotFound(b.toolName.value), true)
  {
  }

  /** The positions of the call blocks, in increasing order: every call
      block's position occurs, and nothing else. */
  function CallPositions(blocks: seq<Llm.ContentBlock>): (pos: seq<int>)
    ensures forall k :: 0 <= k < |pos| ==> 0 <= pos[k] < |blocks| && IsCall(blocks[pos[k]])
    ensures forall k, l :: 0 <= k < l < |pos| ==> pos[k] < pos[l]
    ensures forall i :: 0 <= i < |blocks| && IsCall(blocks[i]) ==> i in pos
    decreases |blocks|
  {
    if |blocks| == 0 then []
    else
      var init := blocks[..|blocks| - 1];
      var pos := CallPositions(init);
      assert forall i :: 0 <= i < |init| ==> init[i] == blocks[i];
      if IsCall(blocks[|blocks| - 1]) then pos + [|blocks| - 1] else pos
  }

  /** The tool results of one round, collected block by block: a result
      for each call block, nothing for any other block. */
  function ToolResults(reg: ToolExecutor.Registry, blocks: seq<Llm.ContentBlock>): seq<Llm.Part>
    decreases |blocks|
  {
    if |blocks| == 0 then []
    else
      var last := blocks[|blocks| - 1];
      ToolResults(reg, blocks[..|blocks| - 1]) + if IsCall(last) then [ResultFor(reg, last)] else []
  }

  /** The results are exactly one per call block, in block order: the k-th
      result answers the block at the k-th call position. */
  lemma {:induction false} ResultsAtCallPositions(reg: ToolExecutor.Registry, blocks: seq<Llm.ContentBlock>)
    ensures var results := ToolResults(reg, blocks);
      var pos := CallPositions(blocks);
      && |results| == |pos|
      && forall k :: 0 <= k < |pos| ==> results[k] == ResultFor(reg, blocks[pos[k]])
    decreases |blocks|
  {
    if |blocks| > 0 {
      var init := blocks[..|blocks| - 1];
      ResultsAtCallPositions(reg, init);
      assert forall i :: 0 <= i < |init| ==> init[i] == blocks[i];
    }
  }

  /** Each result answers its call: it carries the id of the block at the
      same place among the call blocks. */
  lemma ResultsCarryCallIds(reg: ToolExecutor.Registry, blocks: seq<Llm.ContentBlock>)
    ensures var results := ToolResults(reg, blocks);
      var pos := CallPositions(blocks);
      && |results| == |pos|
      && forall k :: 0 <= k < |pos| ==>
           results[k].ToolResult? && results[k].toolUseId == blocks[pos[k]].toolUseId
  {
    ResultsAtCallPositions(reg, blocks);
  }

  /** A round whose blocks are all calls gets exactly one result per
      block, in the same order. */
  lemma {:induction false} ResultsPerBlock(reg: ToolExecutor.Registry, blocks: seq<Llm.ContentBlock>)
    requires forall i :: 0 <= i < |blocks| ==> IsCall(blocks[i])
    ensures var results := ToolResults(reg, blocks);
      |results| == |blocks| && forall i :: 0 <= i < |blocks| ==> results[i] == ResultFor(reg, blocks[i])
    decreases |blocks|
  {
    if |blocks| > 0 {
      var init := blocks[..|blocks| - 1];
      assert forall i :: 0 <= i < |init| ==> init[i] == blocks[i];
      ResultsPerBlock(reg, init);
    }
  }

  /** A round without calls gets no results. */
  lemma {:induction false} NoCallsNoResults(reg: ToolExecutor.Registry, blocks: seq<Llm.ContentBlock>)
    requires forall i :: 0 <= i < |blocks| ==> !IsCall(blocks[i])
    ensures ToolResults(reg, blocks) == []
    decreases |blocks|
  {
    if |blocks| > 0 {
      var init := blocks[..|blocks| - 1];
      assert forall i :: 0 <= i < |init| ==> init[i] == blocks[i];
      NoCallsNoResults(reg, init);
    }
  }

  /** The results of a round split at any block boundary: the results of
      the first part, then those of the rest. */
  lemma {:induction false} ToolResultsAppend(reg: ToolExecutor.Registry, a: seq<Llm.ContentBlock>, b: seq<Llm.ContentBlock>)
    ensures ToolResults(reg, a + b) == ToolResults(reg, a) + ToolResults(reg, b)
    decreases |b|
  {
    if |b| == 0 {
      assert a + b == a;
    } else {
      var ab := a + b;
      var init := b[..|b| - 1];
      assert ab[..|ab| - 1] == a + init;
      assert ab[|ab| - 1] == b[|b| - 1];
      ToolResultsAppend(reg, a, init);
    }
  }

  /** Blocks that are not calls before a run of calls change nothing: the
      results are those of the calls, one each, in order. */
  lemma CallsAfterOtherBlocks(reg: ToolExecutor.Registry, others: seq<Llm.ContentBlock>, calls: seq<Llm.ContentBlock>)
    requires forall i :: 0 <= i < |others| ==> !IsCall(others[i])
    requires forall i :: 0 <= i < |calls| ==> IsCall(calls[i])
    ensures var results := ToolResults(reg, others + calls);
      |results| == |calls| && forall i :: 0 <= i < |calls| ==> results[i] == ResultFor(reg, calls[i])
  {
    ToolResultsAppend(reg, others, calls);
    NoCallsNoResults(reg, others);
    ResultsPerBlock(reg, calls);
    assert ToolResults(reg, others + calls) == ToolResults(reg, calls);
  }

  /** A round made of some blocks that are not calls followed by calls
      with the given ids gets one result per call, answering that id. */
  lemma ResultsAnswerCalls(reg: ToolExecutor.Registry, blocks: seq<Llm.ContentBlock>, n: int, ids: seq<Option<string>>)
    requires 0 <= n <= |blocks| && |blocks| == n + |ids|
    requires forall i :: 0 <= i < n ==> !IsCall(blocks[i])
    requires forall k :: 0 <= k < |ids| ==> IsCall(blocks[n + k]) && blocks[n + k].toolUseId == ids[k]
    ensures var results := ToolResults(reg, blocks);
      && |results| == |ids|
      && forall k :: 0 <= k < |ids| ==> results[k].ToolResult? && results[k].toolUseId == ids[k]
  {
    var others := blocks[..n];
    var calls := blocks[n..];
    assert blocks == others + calls;
    forall k | 0 <= k < |calls|
      ensures calls[k] == blocks[n + k] && IsCall(calls[k])
    {
      assert blocks[n + k].toolUseId == ids[k];
    }
    CallsAfterOtherBlocks(reg, others, calls);
  }

  /** The assistant message of a tool round echoes every block, in order. */
  function Echoes(blocks: seq<Llm.ContentBlock>): (parts: seq<Llm.Part>)
    ensures |parts| == |blocks|
    ensures forall i :: 0 <= i < |blocks| ==> parts[i] == Llm.Echo(blocks[i])
  {
    seq(|blocks|, i requires 0 <= i < |blocks| => Llm.Echo(blocks[i]))
  }

  /** One more block adds its result when it is a call, and nothing
      otherwise. */
  lemma ToolResultsSnoc(reg: ToolExecutor.Registry, blocks: seq<Llm.ContentBlock>, i: int)
    requires 0 <= i < |blocks|
    ensures ToolResults(reg, blocks[..i + 1])
      == ToolResults(reg, blocks[..i]) + (if IsCall(blocks[i]) then [ResultFor(reg, blocks[i])] else [])
  {
    assert blocks[..i + 1][..i] == blocks[..i];
  }

  /** The body of the `foreach` over a tool round's blocks, as the source
      runs it: each block is echoed, and each call block is executed and
      its result collected, failures included. It computes the two part
      lists `Step` appends. */
  method RunBlocks(reg: ToolExecutor.Registry, blocks: seq<Llm.ContentBlock>)
    returns (assistant: seq<Llm.Part>, results: seq<Llm.Part>)
    ensures assistant == Echoes(blocks)
    ensures results == ToolResults(reg, blocks)
  {
    assistant := [];
    results := [];
    var i := 0;
    while i < |blocks|
      invariant 0 <= i <= |blocks|
      invariant |assistant| == i
      invariant forall j :: 0 <= j < i ==> assistant[j] == Llm.Echo(blocks[j])
      invariant results == ToolResults(reg, blocks[..i])
    {
      var block := blocks[i];
      assistant := assistant + [Llm.Echo(block)];
      ToolResultsSnoc(reg, blocks, i);
      if block.blockType == Some("tool_use") && block.toolName.Some? && block.toolInput.Some? {
        var outcome := ToolExecutor.ExecuteTool(reg, block.toolName.value, block.toolInput.value);
        if outcome.Success? {
          results := results + [Llm.ToolResult(block.toolUseId, outcome.value, false)];
        } else {
          results := results + [Llm.ToolResult(block.toolUseId, ErrorPrefix + outcome.error, true)];
        }
      }
      i := i + 1;
    }
    assert blocks[..|blocks|] == blocks;
  }

  /** What one round decides. */
  datatype Turn =
    | Finished(answer: string)
    | Continue(messages: seq<Llm.Message>)
    | Unexpected(stopReason: Option<string>)

  /** One round, given the provider's response: "end_turn" answers;
      "tool_use" appends the assistant's echo and the user's tool results,
      whatever the tools did; anything else, null included, stops. */
  function Step(reg: ToolExecutor.Registry, messages: seq<Llm.Message>, response: Llm.Response): (t: Turn)
    ensures t.Finished? <==> response.stopReason == Some("end_turn")
    ensures t.Continue? <==> response.stopReason == Some("tool_use")
    ensures t.Finished? ==> t.answer == AnswerText(response.content)
    ensures t.Unexpected? ==> t.stopReason == response.stopReason
    ensures t.Continue? ==>
      && |t.messages| == |messages| + 2
      && t.messages[..|messages|] == messages
      && t.messages[|messages|] == Llm.Message("assistant", Llm.Parts(Echoes(response.content)))
      && t.messages[|messages| + 1] == Llm.Message("user", Llm.Parts(ToolResults(reg, response.content)))
  {
    if response.stopReason == Some("end_turn") then Finished(AnswerText(response.content))
    else if response.stopReason == Some("tool_use") then
      Continue(messages + [
        Llm.Message("assistant", Llm.Parts(Echoes(response.content))),
        Llm.Message("user", Llm.Parts(ToolResults(reg, response.content)))])
    else Unexpected(response.stopReason)
  }

  /** How a chat request ends: an answer, a problem response with its
      detail and status code, or (when the fuel runs out) the conversation
      so far. */
  datatype Outcome =
    | Answered(response: string)
    | Problem(detail: string, status: int)
    | Unfinished(messages: seq<Llm.Message>)

  /** The request of every round: the conversation so far, the offered
      tools, the system prompt, and default options. */
  function RoundRequest(messages: seq<Llm.Message>, tools: seq<Llm.Tool>, systemPrompt: string): Llm.Request {
    Llm.Request(messages, Some(tools), Some(systemPrompt), None)
  }

  /** The loop, bounded by `fuel` rounds. Each round asks the provider
      once: a failure (any exception the provider throws) becomes the
      generic problem; "end_turn" answers with the first text block;
      "tool_use" goes round again with the stepped conversation; any other
      stop reason becomes a problem naming it (a null one as the empty
      string). Problems have status 500. */
  function Converse(
    provider: Llm.Provider,
    reg: ToolExecutor.Registry,
    tools: seq<Llm.Tool>,
    systemPrompt: string,
    messages: seq<Llm.Message>,
    fuel: nat): (o: Outcome)
    ensures o.Problem? ==> o.status == 500
    ensures o.Problem? ==>
      o.detail == ChatFailed || (|o.detail| >= |UnexpectedPrefix| && o.detail[..|UnexpectedPrefix|] == UnexpectedPrefix)
    ensures fuel == 0 ==> o == Unfinished(messages)
    ensures fuel > 0 ==>
      var r := provider(RoundRequest(messages, tools, systemPrompt));
      && (r.Failure? ==> o == Problem(ChatFailed, 500))
      && (r.Success? && r.value.stopReason == Some("end_turn") ==> o == Answered(AnswerText(r.value.content)))
      && (r.Success? && r.value.stopReason != Some("end_turn") && r.value.stopReason != Some("tool_use") ==>
            o == Problem(UnexpectedPrefix + r.value.stopReason.GetOr(""), 500))
    decreases fuel
  {
    if fuel == 0 then Unfinished(messages)
    else
      match provider(RoundRequest(messages, tools, systemPrompt))
      case Failure(_) => Problem(ChatFailed, 500)
      case Success(response) =>
        match Step(reg, messages, response)
        case Finished(answer) => Answered(answer)
        case Unexpected(reason) => Problem(UnexpectedPrefix + reason.GetOr(""), 500)
        case Continue(next) => Converse(provider, reg, tools, systemPrompt, next, fuel - 1)
  }

  /** The `/chat` handler: seed the conversation with the request text and
      run the loop, offering the registry's tools. A conversation the fuel
      cuts short has grown by two messages per round and still starts with
      the request text. */
  function Chat(provider: Llm.Provider, reg: ToolExecutor.Registry, systemPrompt: string, text: string, fuel: nat): (o: Outcome)
    requires ToolExecutor.Valid(reg)
    ensures o.Unfinished? ==>
      |o.messages| == 1 + 2 * fuel && o.messages[0] == Llm.Message("user", Llm.Plain(text))
  {
    RoundsOnlyAppend(provider, reg, OfferedTools(reg), systemPrompt, Seed(text), fuel);
    Converse(provider, reg, OfferedTools(reg), systemPrompt, Seed(text), fuel)
  }

  /** Rounds only ever append: a conversation that runs out of fuel has
      grown by exactly two messages per round and still begins with the
      messages it started from. */
  lemma {:induction false} RoundsOnlyAppend(
    provider: Llm.Provider,
    reg: ToolExecutor.Registry,
    tools: seq<Llm.Tool>,
    systemPrompt: string,
    messages: seq<Llm.Message>,
    fuel: nat)
    ensures var o := Converse(provider, reg, tools, systemPrompt, messages, fuel);
      o.Unfinished? ==> |o.messages| == |messages| + 2 * fuel && o.messages[..|messages|] == messages
    decreases fuel
  {
    if fuel > 0 {
      var result := provider(RoundRequest(messages, tools, systemPrompt));
      if result.Success? {
        var t := Step(reg, messages, result.value);
        if t.Continue? {
          var o := Converse(provider, reg, tools, systemPrompt, t.messages, fuel - 1);
          assert Converse(provider, reg, tools, systemPrompt, messages, fuel) == o;
          RoundsOnlyAppend(provider, reg, tools, systemPrompt, t.messages, fuel - 1);
          if o.Unfinished? {
            PrefixOfPrefix(o.messages, t.messages, messages);
          }
        }
      }
    }
  }

  lemma PrefixOfPrefix<T>(a: seq<T>, b: seq<T>, c: seq<T>)
    requires |b| <= |a| && a[..|b|] == b
    requires |c| <= |b| && b[..|c|] == c
    ensures a[..|c|] == c
  {
    assert forall i :: 0 <= i < |c| ==> a[i] == b[i];
  }

  /** A tool round never ends the conversation, whatever its tools do:
      with fuel left, the loop asks the provider again with the extended
      conversation. */
  lemma ToolRoundsContinue(
    provider: Llm.Provider,
    reg: ToolExecutor.Registry,
    tools: seq<Llm.Tool>,
    systemPrompt: string,
    messages: seq<Llm.Message>,
    fuel: nat)
    requires fuel > 0
    requires var r := provider(RoundRequest(messages, tools, systemPrompt));
      r.Success? && r.value.stopReason == Some("tool_use")
    ensures var response := provider(RoundRequest(messages, tools, systemPrompt)).value;
      Converse(provider, reg, tools, systemPrompt, messages, fuel)
        == Converse(provider, reg, tools, systemPrompt, Step(reg, messages, response).messages, fuel - 1)
  {
  }
}
