/** The adapter for the Chat Completions API of OpenAI (`OpenAIProvider`),
    the one adapter with a real protocol translation: the system prompt
    becomes a leading message, tools are wrapped as functions, the first
    choice's text and tool calls become canonical blocks (each call's
    arguments being a JSON text parsed a second time), and `finish_reason`
    is translated into the canonical stop reasons. The POST and the JSON
    parser are functions given as parameters. */
module OpenAIProvider {
  import opened Basics
  import Json
  import Llm
  import Http
  import Text

  const DefaultModel := "gpt-4o"

  const FailurePrefix := "OpenAI API request failed: "
  const NoResponse := "No response from OpenAI"
  const NoChoices := "No choices in OpenAI response"

  /** The `JsonException` message for arguments that are valid JSON but not
      an object (or null), so cannot become a dictionary. */
  const NotAnObject := "The JSON value could not be converted to System.Collections.Generic.Dictionary`2[System.String,System.Object]."

  /** `{name, description, parameters}`. */
  datatype FunctionSpec = FunctionSpec(name: string, description: string, parameters: Json.Value)

  /** `{type: "function", function: {...}}`. */
  datatype WireTool = WireTool(toolType: string, fn: FunctionSpec)

  /** `{model, messages, max_tokens, temperature, tools}`. */
  datatype WireRequest = WireRequest(
    model: string,
    messages: seq<Llm.Message>,
    maxTokens: int,
    temperature: real,
    tools: Option<seq<WireTool>>)

  /** `{name, arguments}`: the arguments are a JSON text. The
      deserializer binds a missing or null member to null, whatever the
      declared nullability, and a list may hold null elements; so every
      reference member here is an Option. */
  datatype FunctionCall = FunctionCall(name: Option<string>, arguments: Option<string>)

  /** `{id, type, function}`. */
  datatype ToolCall = ToolCall(id: Option<string>, callType: Option<string>, fn: Option<FunctionCall>)

  /** `{role, content?, tool_calls?}`. */
  datatype ReplyMessage = ReplyMessage(
    role: Option<string>,
    content: Option<string>,
    toolCalls: Option<seq<Option<ToolCall>>>)

  /** `{message, finish_reason}`. */
  datatype Choice = Choice(message: Option<ReplyMessage>, finishReason: Option<string>)

  datatype WireUsage = WireUsage(promptTokens: int, completionTokens: int)

  /** `{id, choices, usage}`. */
  datatype WireResponse = WireResponse(
    id: Option<string>,
    choices: Option<seq<Option<Choice>>>,
    usage: Option<WireUsage>)

  /** One POST of a request, with the body decoded as a `WireResponse`. */
  type Transport = WireRequest -> Http.Exchange<Http.Decoded<WireResponse>>

  /** The JSON parser applied to a tool call's arguments. */
  type Parser = string -> Json.Parsed

  /** The message list sent: a non-empty system prompt first, as one
      message with role "system", then the caller's messages unchanged. */
  function BuildMessages(systemPrompt: Option<string>, messages: seq<Llm.Message>): (r: seq<Llm.Message>)
    ensures Text.IsNullOrEmpty(systemPrompt) ==> r == messages
    ensures !Text.IsNullOrEmpty(systemPrompt) ==>
              r == [Llm.Message("system", Llm.Plain(systemPrompt.value))] + messages
  {
    if Text.IsNullOrEmpty(systemPrompt) then messages
    else [Llm.Message("system", Llm.Plain(systemPrompt.value))] + messages
  }

  function ToWireTool(t: Llm.Tool): WireTool {
    WireTool("function", FunctionSpec(t.name, t.description, t.parameters))
  }

  /** Each tool, in order, as `{type: "function", function: {name,
      description, parameters}}`; an absent tool list stays absent. */
  function ToWireTools(tools: Option<seq<Llm.Tool>>): (r: Option<seq<WireTool>>)
    ensures r.None? <==> tools.None?
    ensures tools.Some? ==> |r.value| == |tools.value|
    ensures tools.Some? ==> forall i :: 0 <= i < |tools.value| ==>
              r.value[i] == WireTool("function", FunctionSpec(tools.value[i].name, tools.value[i].description, tools.value[i].parameters))
  {
    match tools
    case None => None
    case Some(ts) => Some(seq(|ts|, i requires 0 <= i < |ts| => ToWireTool(ts[i])))
  }

  /** The vendor request. */
  function BuildRequest(defaultModel: string, req: Llm.Request): (w: WireRequest)
    ensures w.model == Llm.ChosenModel(req.options, defaultModel)
    ensures w.maxTokens == Llm.EffectiveOptions(req.options).maxTokens
    ensures w.temperature == Llm.EffectiveOptions(req.options).temperature
    ensures w.messages == BuildMessages(req.systemPrompt, req.messages)
    ensures w.tools == ToWireTools(req.tools)
  {
    var options := Llm.EffectiveOptions(req.options);
    WireRequest(
      options.model.GetOr(defaultModel),
      BuildMessages(req.systemPrompt, req.messages),
      options.maxTokens,
      options.temperature,
      ToWireTools(req.tools))
  }

  /** `finish_reason` in the canonical vocabulary: "stop" is "end_turn",
      "tool_calls" is "tool_use", anything else (null included) is passed
      through unchanged. */
  function StopReason(finishReason: Option<string>): (r: Option<string>)
    ensures finishReason == Some("stop") ==> r == Some("end_turn")
    ensures finishReason == Some("tool_calls") ==> r == Some("tool_use")
    ensures finishReason != Some("stop") && finishReason != Some("tool_calls") ==> r == finishReason
  {
    match finishReason
    case Some("stop") => Some("end_turn")
    case Some("tool_calls") => Some("tool_use")
    case _ => finishReason
  }

  /** `JsonSerializer.Deserialize<Dictionary<string, object>>(arguments) ?? new()`:
      an object becomes a dictionary, the literal `null` becomes the empty
      dictionary, and anything else is a `JsonException`. */
  function ParseArguments(parsed: Json.Parsed): (r: Result<Json.Input, string>)
    ensures parsed.ParseError? ==> r == Failure(parsed.message)
    ensures parsed == Json.Parsed(Json.Null) ==> r == Success(map[])
    ensures parsed.Parsed? && parsed.value.Object? ==> r == Success(Json.ToDictionary(parsed.value.members))
    ensures r.Success? <==> parsed.Parsed? && (parsed.value.Null? || parsed.value.Object?)
  {
    match parsed
    case ParseError(m) => Failure(m)
    case Parsed(v) =>
      if v.Null? then Success(map[])
      else if v.Object? then Success(Json.ToDictionary(v.members))
      else Failure(NotAnObject)
  }

  /** The tool_use block of one tool call, evaluated as the loop body does:
      the arguments are deserialized first (a null call or function is
      dereferenced, null arguments are refused by the deserializer, and a
      parse failure propagates), then id and function name are copied,
      null or not. */
  function CallBlock(call: Option<ToolCall>, parse: Parser): (r: Result<Llm.ContentBlock, string>)
    ensures call.None? || call.value.fn.None? ==> r == Failure(NullReference)
    ensures call.Some? && call.value.fn.Some? && call.value.fn.value.arguments.None? ==>
              r == Failure(ArgumentNull("json"))
    ensures call.Some? && call.value.fn.Some? && call.value.fn.value.arguments.Some? ==>
              var parsed := ParseArguments(parse(call.value.fn.value.arguments.value));
              && (parsed.Failure? ==> r == Failure(parsed.error))
              && (parsed.Success? ==> r == Success(Llm.ContentBlock(
                    Some("tool_use"), None, call.value.id, call.value.fn.value.name, Some(parsed.value))))
  {
    match call
    case None => Failure(NullReference)
    case Some(c) =>
      match c.fn
      case None => Failure(NullReference)
      case Some(f) =>
        match f.arguments
        case None => Failure(ArgumentNull("json"))
        case Some(arguments) =>
          match ParseArguments(parse(arguments))
          case Failure(m) => Failure(m)
          case Success(input) => Success(Llm.ContentBlock(Some("tool_use"), None, c.id, f.name, Some(input)))
  }

  /** Whether a call becomes a block: it and its function are present and
      its arguments can be turned into a dictionary. */
  predicate Translates(parse: Parser, call: Option<ToolCall>) {
    CallBlock(call, parse).Success?
  }

  /** One tool_use block per tool call, in order; the first call that does
      not translate fails the whole translation with its error. */
  function ToolUseBlocks(calls: seq<Option<ToolCall>>, parse: Parser): (r: Result<seq<Llm.ContentBlock>, string>)
    ensures r.Success? <==> forall i :: 0 <= i < |calls| ==> Translates(parse, calls[i])
    ensures r.Success? ==> |r.value| == |calls|
    ensures r.Success? ==> forall i :: 0 <= i < |calls| ==> r.value[i] == CallBlock(calls[i], parse).value
    ensures r.Failure? ==> exists i :: (0 <= i < |calls| && !Translates(parse, calls[i])
              && (forall j :: 0 <= j < i ==> Translates(parse, calls[j]))
              && r.error == CallBlock(calls[i], parse).error)
  {
    if |calls| == 0 then Success([])
    else
      match CallBlock(calls[0], parse)
      case Failure(m) => Failure(m)
      case Success(block) =>
        match ToolUseBlocks(calls[1..], parse)
        case Failure(m) =>
          assert forall i :: 1 <= i < |calls| ==> calls[i] == calls[1..][i - 1];
          Failure(m)
        case Success(rest) =>
          assert forall i :: 1 <= i < |calls| ==> calls[i] == calls[1..][i - 1];
          Success([block] + rest)
  }

  /** The text block the first choice contributes: one, when its content
      is non-empty. */
  function TextBlocks(content: Option<string>): (r: seq<Llm.ContentBlock>)
    ensures |r| <= 1
    ensures |r| == 1 <==> !Text.IsNullOrEmpty(content)
    ensures |r| == 1 ==> r[0] == Llm.TextBlock(content.value)
  {
    if Text.IsNullOrEmpty(content) then [] else [Llm.TextBlock(content.value)]
  }

  /** The tool calls of a reply message; a null list is none. */
  function Calls(m: ReplyMessage): seq<Option<ToolCall>> {
    m.toolCalls.GetOr([])
  }

  /** The first choice, when there is one and it is not null. */
  function FirstChoice(choices: seq<Option<Choice>>): (c: Option<Choice>)
    ensures c.Some? <==> |choices| > 0 && choices[0].Some?
    ensures c.Some? ==> c == choices[0]
  {
    if |choices| == 0 then None else choices[0]
  }

  /** The canonical response from a decoded body. In the source's order: a
      null choice list is refused by `FirstOrDefault`; no first choice (none
      at all, or a null one) is an error of its own; a null message is
      dereferenced; the tool calls are translated; a null usage is
      dereferenced last. Only the first choice counts: its text (if any)
      comes first, then one tool_use block per tool call. */
  function Translate(w: WireResponse, parse: Parser): (r: Result<Llm.Response, string>)
    ensures w.choices.None? ==> r == Failure(ArgumentNull("source"))
    ensures w.choices.Some? && FirstChoice(w.choices.value).None? ==> r == Failure(NoChoices)
    ensures w.choices.Some? && FirstChoice(w.choices.value).Some? ==>
      var choice := FirstChoice(w.choices.value).value;
      && (choice.message.None? ==> r == Failure(NullReference))
      && (choice.message.Some? ==>
            var calls := Calls(choice.message.value);
            && (ToolUseBlocks(calls, parse).Failure? ==> r == Failure(ToolUseBlocks(calls, parse).error))
            && (ToolUseBlocks(calls, parse).Success? && w.usage.None? ==> r == Failure(NullReference))
            && (r.Success? <==> ToolUseBlocks(calls, parse).Success? && w.usage.Some?)
            && (r.Success? ==>
                  && r.value.id == w.id
                  && r.value.stopReason == StopReason(choice.finishReason)
                  && r.value.usage == Llm.Usage(w.usage.value.promptTokens, w.usage.value.completionTokens)
                  && r.value.content == TextBlocks(choice.message.value.content) + ToolUseBlocks(calls, parse).value))
  {
    match w.choices
    case None => Failure(ArgumentNull("source"))
    case Some(choices) =>
      match FirstChoice(choices)
      case None => Failure(NoChoices)
      case Some(choice) =>
        match choice.message
        case None => Failure(NullReference)
        case Some(message) =>
          match ToolUseBlocks(Calls(message), parse)
          case Failure(m) => Failure(m)
          case Success(toolBlocks) =>
            match w.usage
            case None => Failure(NullReference)
            case Some(usage) =>
              Success(Llm.Response(
                w.id,
                TextBlocks(message.content) + toolBlocks,
                StopReason(choice.finishReason),
                Llm.Usage(usage.promptTokens, usage.completionTokens)))
  }

  /** `SendMessageAsync`. A response is produced only from a success status
      with a decoded body that translates; `HttpRequestException`s are
      rethrown with the vendor prefix; every other failure (a null body, no
      choices, a null member the translation dereferences, arguments that
      do not parse, a malformed body, a timeout) propagates with its own
      message. */
  function Send(defaultModel: string, transport: Transport, parse: Parser, req: Llm.Request): (r: Result<Llm.Response, string>)
    ensures var ex := transport(BuildRequest(defaultModel, req));
      && (r.Success? <==> ex.Responded? && Http.IsSuccessStatus(ex.status) && ex.body.Body?
                           && Translate(ex.body.value, parse).Success?)
      && (ex.Responded? && Http.IsSuccessStatus(ex.status) && ex.body.Body? ==> r == Translate(ex.body.value, parse))
      && (ex.RequestFailed? ==> r == Failure(FailurePrefix + ex.message))
      && (ex.Responded? && !Http.IsSuccessStatus(ex.status) ==>
            r == Failure(FailurePrefix + Http.NotSuccessMessage(ex.status, ex.reason)))
      && (ex.Aborted? ==> r == Failure(ex.message))
      && (ex.Responded? && Http.IsSuccessStatus(ex.status) && ex.body.NullBody? ==> r == Failure(NoResponse))
      && (ex.Responded? && Http.IsSuccessStatus(ex.status) && ex.body.Malformed? ==> r == Failure(ex.body.message))
  {
    var outcome := Http.EnsureSuccess(transport(BuildRequest(defaultModel, req)));
    if outcome.Failure? then
      if outcome.error.HttpFault? then Failure(FailurePrefix + outcome.error.message)
      else Failure(outcome.error.message)
    else if outcome.value.Malformed? then Failure(outcome.value.message)
    else if outcome.value.NullBody? then Failure(NoResponse)
    else Translate(outcome.value.value, parse)
  }

  /** The adapter as a provider bound to a default model, a transport and a
      JSON parser: every request is answered by `Send`. */
  function AsProvider(defaultModel: string, transport: Transport, parse: Parser): (p: Llm.Provider)
    ensures forall req :: p(req) == Send(defaultModel, transport, parse, req)
  {
    req => Send(defaultModel, transport, parse, req)
  }

  /** The three outcomes of the finish-reason translation, both ways: a
      canonical "end_turn" comes only from "stop", a canonical "tool_use"
      only from "tool_calls", and nothing else is renamed. */
  lemma StopReasonCases(f: Option<string>)
    ensures StopReason(f) == Some("end_turn") <==> f == Some("stop") || f == Some("end_turn")
    ensures StopReason(f) == Some("tool_use") <==> f == Some("tool_calls") || f == Some("tool_use")
    ensures StopReason(f).None? <==> f.None?
  {
  }

  /** The message a translated response came from: the first choice's. */
  function TranslatedMessage(w: WireResponse, parse: Parser): (m: ReplyMessage)
    requires Translate(w, parse).Success?
  {
    FirstChoice(w.choices.value).value.message.value
  }

  /** Every tool call of a translated response becomes a tool_use block
      with an input, carrying the call's id and function name; the block
      is one the loop executes exactly when that name is present. */
  lemma TranslatedCallsAreComplete(w: WireResponse, parse: Parser)
    requires Translate(w, parse).Success?
    ensures var r := Translate(w, parse).value;
      var m := TranslatedMessage(w, parse);
      var calls := Calls(m);
      var offset := |TextBlocks(m.content)|;
      && |r.content| == offset + |calls|
      && (forall i :: 0 <= i < offset ==> r.content[i].blockType == Some("text"))
      && forall i :: offset <= i < |r.content| ==>
           && calls[i - offset].Some? && calls[i - offset].value.fn.Some?
           && r.content[i].blockType == Some("tool_use")
           && r.content[i].toolUseId == calls[i - offset].value.id
           && r.content[i].toolName == calls[i - offset].value.fn.value.name
           && r.content[i].toolInput.Some?
  {
    var r := Translate(w, parse).value;
    var m := TranslatedMessage(w, parse);
    var calls := Calls(m);
    var blocks := ToolUseBlocks(calls, parse).value;
    var offset := |TextBlocks(m.content)|;
    assert r.content == TextBlocks(m.content) + blocks;
    forall i | offset <= i < |r.content|
      ensures r.content[i] == CallBlock(calls[i - offset], parse).value
    {
      assert r.content[i] == blocks[i - offset];
    }
  }

  /** The system prompt is sent as exactly one message and the caller's
      messages follow it unchanged and in order. */
  lemma SystemPromptLeads(systemPrompt: string, messages: seq<Llm.Message>)
    requires systemPrompt != ""
    ensures var r := BuildMessages(Some(systemPrompt), messages);
      && |r| == |messages| + 1
      && r[0] == Llm.Message("system", Llm.Plain(systemPrompt))
      && r[1..] == messages
  {
  }
}
