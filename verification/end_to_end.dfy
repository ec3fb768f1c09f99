/** Whole conversations: the loop driven by concrete providers and tools,
    and the loop fed by a vendor adapter's translation. */
module EndToEnd {
  import opened Basics
  import Json
  import Http
  import Llm
  import ToolExecutor
  import AddShoppingItemTool
  import OpenAIProvider
  import AgentLoop

  /** A task service that accepts every POST. */
  function AcceptAll(path: string): Http.Exchange<()> {
    Http.Responded(201, "Created", ())
  }

  /** A registry holding the shopping tool, bound to that service. */
  function ShoppingRegistry(): (reg: ToolExecutor.Registry)
    ensures ToolExecutor.Valid(reg)
  {
    ToolExecutor.Build([AddShoppingItemTool.MakeTool("list-1", AcceptAll)])
  }

  const MilkCall := Llm.ToolUseBlock("toolu_1", "add_shopping_item", map["item" := Json.Str("milk")])
  const MilkReply := "I've added milk to your list."

  /** A provider that first asks for the shopping tool and, once the
      conversation has grown, answers in text. */
  function MilkProvider(): Llm.Provider {
    (req: Llm.Request) =>
      if |req.messages| == 1 then Success(Llm.Response(Some("msg_1"), [MilkCall], Some("tool_use"), Llm.Usage(10, 5)))
      else Success(Llm.Response(Some("msg_2"), [Llm.TextBlock(MilkReply)], Some("end_turn"), Llm.Usage(20, 8)))
  }

  const MilkInput: Json.Input := map["item" := Json.Str("milk")]

  /** The registry runs the shopping tool for its name. */
  lemma ShoppingRegistryRuns(input: Json.Input)
    ensures ToolExecutor.ExecuteTool(ShoppingRegistry(), AddShoppingItemTool.Name, input)
      == AddShoppingItemTool.Execute("list-1", AcceptAll, input)
  {
    var t := AddShoppingItemTool.MakeTool("list-1", AcceptAll);
    ToolExecutor.BuildBindsLastRegistration([t], AddShoppingItemTool.Name);
    assert ToolExecutor.LastNamed([t], AddShoppingItemTool.Name) == Some(t);
  }

  /** Adding milk is confirmed by the accepting service. */
  lemma MilkIsAdded()
    ensures AddShoppingItemTool.Execute("list-1", AcceptAll, MilkInput)
      == Success("Added 'milk' to shopping list")
  {
    assert Json.Display(MilkInput["item"]) == Some("milk");
    assert Http.IsSuccessStatus(201);
    assert AddShoppingItemTool.Confirmation("milk") == "Added 'milk' to shopping list";
  }

  lemma MilkResult()
    ensures AgentLoop.ToolResults(ShoppingRegistry(), [MilkCall])
      == [Llm.ToolResult(Some("toolu_1"), "Added 'milk' to shopping list", false)]
  {
    var reg := ShoppingRegistry();
    ShoppingRegistryRuns(MilkInput);
    MilkIsAdded();
    assert AgentLoop.IsCall(MilkCall);
    assert AgentLoop.ResultFor(reg, MilkCall)
      == Llm.ToolResult(Some("toolu_1"), "Added 'milk' to shopping list", false);
    AgentLoop.ResultsPerBlock(reg, [MilkCall]);
  }

  /** "add milk to my list": the provider asks for the shopping tool, the
      tool confirms, the loop sends the result back and asks again, and the
      provider's text is the answer, after two rounds. */
  lemma AddMilkScenario(systemPrompt: string)
    ensures AgentLoop.Chat(MilkProvider(), ShoppingRegistry(), systemPrompt, "add milk to my list", 2)
      == AgentLoop.Answered(MilkReply)
  {
    var reg := ShoppingRegistry();
    var tools := AgentLoop.OfferedTools(reg);
    var seed := AgentLoop.Seed("add milk to my list");
    var first := MilkProvider()(AgentLoop.RoundRequest(seed, tools, systemPrompt));
    assert first == Success(Llm.Response(Some("msg_1"), [MilkCall], Some("tool_use"), Llm.Usage(10, 5)));
    var next := AgentLoop.Step(reg, seed, first.value).messages;
    assert |next| == 3;
    MilkResult();
    var second := MilkProvider()(AgentLoop.RoundRequest(next, tools, systemPrompt));
    assert second.value.content == [Llm.TextBlock(MilkReply)];
    assert AgentLoop.AnswerText(second.value.content) == MilkReply;
  }

  const Greeting := "Hello! How can I help?"

  /** A provider that answers at once. */
  function ChattyProvider(): Llm.Provider {
    (req: Llm.Request) => Success(Llm.Response(Some("msg_1"), [Llm.TextBlock(Greeting)], Some("end_turn"), Llm.Usage(10, 5)))
  }

  /** A request without tool intent is answered by the first provider
      response: one round suffices, and no tool runs. */
  lemma NoToolScenario(reg: ToolExecutor.Registry, systemPrompt: string, text: string, fuel: nat)
    requires ToolExecutor.Valid(reg)
    requires fuel >= 1
    ensures AgentLoop.Chat(ChattyProvider(), reg, systemPrompt, text, fuel) == AgentLoop.Answered(Greeting)
  {
    assert AgentLoop.AnswerText([Llm.TextBlock(Greeting)]) == Greeting;
  }

  /** The shape of a translated OpenAI response, as the loop sees it: at
      most one leading block that is not a call, then one block per tool
      call, carrying its id, which the loop executes exactly when the call
      names its function. */
  lemma TranslatedBlocks(w: OpenAIProvider.WireResponse, parse: OpenAIProvider.Parser)
    requires OpenAIProvider.Translate(w, parse).Success?
    ensures var content := OpenAIProvider.Translate(w, parse).value.content;
      var m := OpenAIProvider.TranslatedMessage(w, parse);
      var calls := OpenAIProvider.Calls(m);
      var n := |OpenAIProvider.TextBlocks(m.content)|;
      && n <= |content| && |content| == n + |calls|
      && (forall i :: 0 <= i < n ==> !AgentLoop.IsCall(content[i]))
      && (forall k :: 0 <= k < |calls| ==>
            && calls[k].Some? && calls[k].value.fn.Some?
            && content[n + k].toolUseId == calls[k].value.id
            && (AgentLoop.IsCall(content[n + k]) <==> calls[k].value.fn.value.name.Some?))
  {
    OpenAIProvider.TranslatedCallsAreComplete(w, parse);
  }

  /** A tool call that is present and names its function. */
  predicate Named(call: Option<OpenAIProvider.ToolCall>) {
    call.Some? && call.value.fn.Some? && call.value.fn.value.name.Some?
  }

  /** Every tool call the OpenAI adapter translates, when it names its
      function, is executed by the loop: one result per call, in order,
      each answering its call's id. The text block the adapter may put
      first is never executed. */
  lemma OpenAICallsAllRun(w: OpenAIProvider.WireResponse, parse: OpenAIProvider.Parser, reg: ToolExecutor.Registry)
    requires OpenAIProvider.Translate(w, parse).Success?
    requires var calls := OpenAIProvider.Calls(OpenAIProvider.TranslatedMessage(w, parse));
      forall k :: 0 <= k < |calls| ==> Named(calls[k])
    ensures var content := OpenAIProvider.Translate(w, parse).value.content;
      var calls := OpenAIProvider.Calls(OpenAIProvider.TranslatedMessage(w, parse));
      var results := AgentLoop.ToolResults(reg, content);
      && |results| == |calls|
      && forall k :: 0 <= k < |calls| ==>
           calls[k].Some? && results[k].ToolResult? && results[k].toolUseId == calls[k].value.id
  {
    var content := OpenAIProvider.Translate(w, parse).value.content;
    var m := OpenAIProvider.TranslatedMessage(w, parse);
    var calls := OpenAIProvider.Calls(m);
    var n := |OpenAIProvider.TextBlocks(m.content)|;
    assert forall k :: 0 <= k < |calls| ==> Named(calls[k]);
    var ids := seq(|calls|, k requires 0 <= k < |calls| => calls[k].value.id);
    TranslatedBlocks(w, parse);
    forall k | 0 <= k < |calls|
      ensures AgentLoop.IsCall(content[n + k]) && content[n + k].toolUseId == ids[k]
    {
      assert Named(calls[k]);
      assert ids[k] == calls[k].value.id;
    }
    AgentLoop.ResultsAnswerCalls(reg, content, n, ids);
    var results := AgentLoop.ToolResults(reg, content);
    forall k | 0 <= k < |calls|
      ensures calls[k].Some? && results[k].ToolResult? && results[k].toolUseId == calls[k].value.id
    {
      assert Named(calls[k]);
      assert ids[k] == calls[k].value.id;
    }
  }
}
