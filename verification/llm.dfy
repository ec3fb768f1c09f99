/** The vendor-neutral conversation model every adapter translates to and
    from (`LlmMessage`, `LlmTool`, `LlmResponse`, `LlmContentBlock`,
    `LlmUsage`, `LlmOptions`), and the provider capability itself. */
module Llm {
  import opened Basics
  import Json

  /** One content block of a provider response. The type is an open string
      ("text", "tool_use", or whatever a vendor sends, null included); every
      other field may be null too. */
  datatype ContentBlock = ContentBlock(
    blockType: Option<string>,
    text: Option<string>,
    toolUseId: Option<string>,
    toolName: Option<string>,
    toolInput: Option<Json.Input>)

  function TextBlock(text: string): ContentBlock {
    ContentBlock(Some("text"), Some(text), None, None, None)
  }

  function ToolUseBlock(id: string, name: string, input: Json.Input): ContentBlock {
    ContentBlock(Some("tool_use"), None, Some(id), Some(name), Some(input))
  }

  datatype Usage = Usage(inputTokens: int, outputTokens: int)

  /** A provider's answer; a null id or stop reason is `None`. */
  datatype Response = Response(
    id: Option<string>,
    content: seq<ContentBlock>,
    stopReason: Option<string>,
    usage: Usage)

  /** One element of a structured message: the echo of a response block the
      conversation sends back to the provider, or the result of one tool
      call. `isError` false stands for a result that carries no `is_error`
      field at all. */
  datatype Part =
    | Echo(block: ContentBlock)
    | ToolResult(toolUseId: Option<string>, content: string, isError: bool)

  /** A message's content: a plain string, or a list of parts. */
  datatype Content = Plain(text: string) | Parts(parts: seq<Part>)

  datatype Message = Message(role: string, content: Content)

  /** A tool as it is described to a provider. */
  datatype Tool = Tool(name: string, description: string, parameters: Json.Value)

  /** Request options. The temperature is a .NET `double`; the core only
      forwards it, so it is carried as a real. */
  datatype Options = Options(maxTokens: int, temperature: real, model: Option<string>)

  /** `new LlmOptions()`. */
  const DefaultOptions := Options(4096, 1.0, None)

  /** The arguments of one `SendMessageAsync` call. */
  datatype Request = Request(
    messages: seq<Message>,
    tools: Option<seq<Tool>>,
    systemPrompt: Option<string>,
    options: Option<Options>)

  /** The provider capability (`ILlmProvider`): a request either yields a
      response or fails with the message of the exception it throws. */
  type Provider = Request -> Result<Response, string>

  /** The options a request is sent with: absent options are the defaults. */
  function EffectiveOptions(o: Option<Options>): (r: Options)
    ensures o.Some? ==> r == o.value
    ensures o.None? ==> r == DefaultOptions
  {
    o.GetOr(DefaultOptions)
  }

  /** The model a request is sent to: the options' model when one is given,
      otherwise the adapter's default. */
  function ChosenModel(o: Option<Options>, defaultModel: string): (model: string)
    ensures o.Some? && o.value.model.Some? ==> model == o.value.model.value
    ensures o.None? || o.value.model.None? ==> model == defaultModel
  {
    EffectiveOptions(o).model.GetOr(defaultModel)
  }
}
