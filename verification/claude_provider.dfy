/** The adapter for the Messages API of Anthropic (`ClaudeProvider`): the
    canonical request is turned into the vendor's request record, and the
    vendor's response record is mapped block for block onto the canonical
    response. The POST itself is a transport function given as a
    parameter. */
module ClaudeProvider {
  import opened Basics
  import Json
  import Llm
  import Http

  const DefaultModel := "claude-3-5-sonnet-20241022"

  const FailurePrefix := "Claude API request failed: "
  const NoResponse := "No response from Claude"

  /** `{name, description, input_schema}`. */
  datatype WireTool = WireTool(name: string, description: string, inputSchema: Json.Value)

  /** `{model, max_tokens, temperature, system, messages, tools}`. */
  datatype WireRequest = WireRequest(
    model: string,
    maxTokens: int,
    temperature: real,
    system: Option<string>,
    messages: seq<Llm.Message>,
    tools: Option<seq<WireTool>>)

  /** `{type, text?, id?, name?, input?}`. Every member is a reference
      and may be null; only the last four are declared nullable. */
  datatype WireBlock = WireBlock(
    blockType: Option<string>,
    text: Option<string>,
    id: Option<string>,
    name: Option<string>,
    input: Option<Json.Input>)

  datatype WireUsage = WireUsage(inputTokens: int, outputTokens: int)

  /** `{id, content, stop_reason, usage}`. The deserializer binds a missing
      or null member to null, whatever the declared nullability, and a list
      may hold null elements. */
  datatype WireResponse = WireResponse(
    id: Option<string>,
    content: Option<seq<Option<WireBlock>>>,
    stopReason: Option<string>,
    usage: Option<WireUsage>)

  /** One POST of a request, with the body decoded as a `WireResponse`. */
  type Transport = WireRequest -> Http.Exchange<Http.Decoded<WireResponse>>

  function ToWireTool(t: Llm.Tool): WireTool {
    WireTool(t.name, t.description, t.parameters)
  }

  function FromWireTool(w: WireTool): Llm.Tool {
    Llm.Tool(w.name, w.description, w.inputSchema)
  }

  /** Tools are described one for one and in order, the parameter schema
      becoming `input_schema`; an absent tool list stays absent. */
  function ToWireTools(tools: Option<seq<Llm.Tool>>): (r: Option<seq<WireTool>>)
    ensures r.None? <==> tools.None?
    ensures tools.Some? ==> |r.value| == |tools.value|
    ensures tools.Some? ==> forall i :: 0 <= i < |tools.value| ==>
              && r.value[i].name == tools.value[i].name
              && r.value[i].description == tools.value[i].description
              && r.value[i].inputSchema == tools.value[i].parameters
  {
    match tools
    case None => None
    case Some(ts) => Some(seq(|ts|, i requires 0 <= i < |ts| => ToWireTool(ts[i])))
  }

  /** The vendor request: the model is the options' model or the adapter's
      default, absent options are the defaults, the system prompt goes into
      its own field, and the messages pass through untouched. */
  function BuildRequest(defaultModel: string, req: Llm.Request): (w: WireRequest)
    ensures w.model == Llm.ChosenModel(req.options, defaultModel)
    ensures w.maxTokens == Llm.EffectiveOptions(req.options).maxTokens
    ensures w.temperature == Llm.EffectiveOptions(req.options).temperature
    ensures w.system == req.systemPrompt
    ensures w.messages == req.messages
    ensures w.tools == ToWireTools(req.tools)
  {
    var options := Llm.EffectiveOptions(req.options);
    WireRequest(
      options.model.GetOr(defaultModel),
      options.maxTokens,
      options.temperature,
      req.systemPrompt,
      req.messages,
      ToWireTools(req.tools))
  }

  function ToBlock(b: WireBlock): Llm.ContentBlock {
    Llm.ContentBlock(b.blockType, b.text, b.id, b.name, b.input)
  }

  function FromBlock(b: Llm.ContentBlock): WireBlock {
    WireBlock(b.blockType, b.text, b.toolUseId, b.toolName, b.toolInput)
  }

  /** The members the translation dereferences are all present: the block
      list, each of its blocks, and the usage. */
  predicate Dereferenceable(w: WireResponse) {
    && w.content.Some?
    && (forall i :: 0 <= i < |w.content.value| ==> w.content.value[i].Some?)
    && w.usage.Some?
  }

  /** The canonical response: blocks one for one and in order, the stop
      reason passed through without any translation, id and token counts
      copied. The arguments are evaluated in order, so a null block list
      fails `Select` first; a null block, or then a null usage, is
      dereferenced. */
  function Translate(w: WireResponse): (r: Result<Llm.Response, string>)
    ensures r.Success? <==> Dereferenceable(w)
    ensures w.content.None? ==> r == Failure(ArgumentNull("source"))
    ensures w.content.Some? && !Dereferenceable(w) ==> r == Failure(NullReference)
    ensures r.Success? ==>
      && r.value.id == w.id
      && r.value.stopReason == w.stopReason
      && r.value.usage == Llm.Usage(w.usage.value.inputTokens, w.usage.value.outputTokens)
      && |r.value.content| == |w.content.value|
      && forall i :: 0 <= i < |w.content.value| ==>
           && r.value.content[i].blockType == w.content.value[i].value.blockType
           && r.value.content[i].text == w.content.value[i].value.text
           && r.value.content[i].toolUseId == w.content.value[i].value.id
           && r.value.content[i].toolName == w.content.value[i].value.name
           && r.value.content[i].toolInput == w.content.value[i].value.input
  {
    match w.content
    case None => Failure(ArgumentNull("source"))
    case Some(blocks) =>
      if exists i :: 0 <= i < |blocks| && blocks[i].None? then Failure(NullReference)
      else if w.usage.None? then Failure(NullReference)
      else
        Success(Llm.Response(
          w.id,
          seq(|blocks|, i requires 0 <= i < |blocks| => ToBlock(blocks[i].value)),
          w.stopReason,
          Llm.Usage(w.usage.value.inputTokens, w.usage.value.outputTokens)))
  }

  /** `SendMessageAsync`. A response is produced only from a success status
      with a decoded body that translates; `HttpRequestException`s (a
      failed request or a non-success status) are rethrown with the vendor
      prefix; a null body is its own error; anything else (a malformed
      body, a timeout, a null member the translation dereferences)
      propagates unchanged. */
  function Send(defaultModel: string, transport: Transport, req: Llm.Request): (r: Result<Llm.Response, string>)
    ensures var ex := transport(BuildRequest(defaultModel, req));
      && (r.Success? <==> ex.Responded? && Http.IsSuccessStatus(ex.status) && ex.body.Body?
                           && Dereferenceable(ex.body.value))
      && (ex.Responded? && Http.IsSuccessStatus(ex.status) && ex.body.Body? ==> r == Translate(ex.body.value))
      && (ex.RequestFailed? ==> r == Failure(FailurePrefix + ex.message))
      && (ex.Responded? && !Http.IsSuccessStatus(ex.status) ==>
            r == Failure(FailurePrefix + Http.NotSuccessMessage(ex.status, ex.reason)))
      && (ex.Aborted? ==> r == Failure(ex.message))
      && (ex.Responded? && Http.IsSuccessStatus(ex.status) && ex.body.NullBody? ==> r == Failure(NoResponse))
      && (ex.Responded? && Http.IsSuccessStatus(ex.status) && ex.body.Malformed? ==> r == Failure(ex.body.message))
  {
    var outcome := Http.EnsureSuccess(transport(BuildRequest(defaultModel, req)));
    if outcome.Failure? then
      if outcome.error.HttpFault? then Failure(FailurePrefix + outcome.error.message)
      else Failure(outcome.error.message)
    else if outcome.value.Malformed? then Failure(outcome.value.message)
    else if outcome.value.NullBody? then Failure(NoResponse)
    else Translate(outcome.value.value)
  }

  /** The adapter as a provider bound to a default model and a transport:
      every request is answered by `Send`. */
  function AsProvider(defaultModel: string, transport: Transport): (p: Llm.Provider)
    ensures forall req :: p(req) == Send(defaultModel, transport, req)
  {
    req => Send(defaultModel, transport, req)
  }

  /** The canonical response keeps every field of every vendor block:
      mapping the blocks back gives the vendor's blocks. */
  lemma TranslateKeepsBlocks(w: WireResponse)
    requires Dereferenceable(w)
    ensures var r := Translate(w).value;
      seq(|r.content|, i requires 0 <= i < |r.content| => Some(FromBlock(r.content[i]))) == w.content.value
  {
  }

  /** The tool list sent to the vendor describes exactly the caller's tools:
      mapping it back gives them unchanged. */
  lemma WireToolsKeepTools(tools: seq<Llm.Tool>)
    ensures var w := ToWireTools(Some(tools)).value;
      seq(|w|, i requires 0 <= i < |w| => FromWireTool(w[i])) == tools
  {
  }
}
