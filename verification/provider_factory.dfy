/** The provider factory (`LlmProviderFactory`): it reads the configuration,
    picks a vendor by name in any casing, and describes the adapter to
    build: which named HTTP client, its base address and default headers,
    and the default model. A missing setting fails fast. */
module ProviderFactory {
  import opened Basics
  import Text
  import Llm
  import ClaudeProvider
  import OpenAIProvider

  /** The configuration: setting keys to values. A missing key reads as
      null. */
  type Config = map<string, string>

  datatype Vendor = Claude | OpenAI

  /** Everything the factory decides about an adapter. */
  datatype Binding = Binding(
    vendor: Vendor,
    clientName: string,
    baseAddress: string,
    headers: seq<(string, string)>,
    defaultModel: string)

  /** The two exception types the factory throws. */
  datatype ConfigError = InvalidOperation(message: string) | NotImplemented(message: string)

  const ProviderKey := "Llm:Provider"
  const ClaudeKeyKey := "Llm:Claude:ApiKey"
  const ClaudeModelKey := "Llm:Claude:Model"
  const OpenAIKeyKey := "Llm:OpenAI:ApiKey"
  const OpenAIModelKey := "Llm:OpenAI:Model"

  const ProviderRequired := "Llm:Provider configuration is required"
  const BedrockMissing := "Bedrock provider not yet implemented"
  const UnknownPrefix := "Unknown LLM provider: "
  const ClaudeKeyRequired := "Claude API key is required"
  const OpenAIKeyRequired := "OpenAI API key is required"

  const ClaudeBase := "https://api.anthropic.com"
  const AnthropicVersion := "2023-06-01"
  const OpenAIBase := "https://api.openai.com"

  /** `_configuration[key]`. */
  function Setting(c: Config, key: string): (r: Option<string>)
    ensures r.Some? <==> key in c
    ensures r.Some? ==> r.value == c[key]
  {
    if key in c then Some(c[key]) else None
  }

  /** `name` is `word` written in some mixture of cases: exactly the names
      whose invariant lower case is `word`. */
  predicate SpelledAs(name: string, word: string) {
    |name| == |word| && forall j :: 0 <= j < |name| ==> Text.CaseVariant(name[j], word[j])
  }

  lemma LowerWords()
    ensures forall j :: 0 <= j < |"claude"| ==> Text.IsAsciiLower("claude"[j])
    ensures forall j :: 0 <= j < |"openai"| ==> Text.IsAsciiLower("openai"[j])
    ensures forall j :: 0 <= j < |"bedrock"| ==> Text.IsAsciiLower("bedrock"[j])
  {
  }

  /** `CreateClaudeProvider`: the API key is required; the client is the
      "Claude" client at the Anthropic base address, authenticating with
      the key and pinning the API version; the model is the configured one
      or the adapter's own default. */
  function CreateClaudeProvider(c: Config): (r: Result<Binding, ConfigError>)
    ensures ClaudeKeyKey !in c ==> r == Failure(InvalidOperation(ClaudeKeyRequired))
    ensures ClaudeKeyKey in c ==> r.Success? && r.value.vendor == Claude
    ensures r.Success? ==>
      && r.value.clientName == "Claude"
      && r.value.baseAddress == ClaudeBase
      && r.value.headers == [("x-api-key", c[ClaudeKeyKey]), ("anthropic-version", AnthropicVersion)]
      && (ClaudeModelKey in c ==> r.value.defaultModel == c[ClaudeModelKey])
      && (ClaudeModelKey !in c ==> r.value.defaultModel == ClaudeProvider.DefaultModel)
  {
    match Setting(c, ClaudeKeyKey)
    case None => Failure(InvalidOperation(ClaudeKeyRequired))
    case Some(key) =>
      Success(Binding(
        Claude,
        "Claude",
        ClaudeBase,
        [("x-api-key", key), ("anthropic-version", AnthropicVersion)],
        Setting(c, ClaudeModelKey).GetOr("claude-3-5-sonnet-20241022")))
  }

  /** `CreateOpenAIProvider`: the API key is required; the client is the
      "OpenAI" client at the OpenAI base address with a bearer token; the
      model is the configured one or the adapter's own default. */
  function CreateOpenAIProvider(c: Config): (r: Result<Binding, ConfigError>)
    ensures OpenAIKeyKey !in c ==> r == Failure(InvalidOperation(OpenAIKeyRequired))
    ensures OpenAIKeyKey in c ==> r.Success? && r.value.vendor == OpenAI
    ensures r.Success? ==>
      && r.value.clientName == "OpenAI"
      && r.value.baseAddress == OpenAIBase
      && r.value.headers == [("Authorization", "Bearer " + c[OpenAIKeyKey])]
      && (OpenAIModelKey in c ==> r.value.defaultModel == c[OpenAIModelKey])
      && (OpenAIModelKey !in c ==> r.value.defaultModel == OpenAIProvider.DefaultModel)
  {
    match Setting(c, OpenAIKeyKey)
    case None => Failure(InvalidOperation(OpenAIKeyRequired))
    case Some(key) =>
      Success(Binding(
        OpenAI,
        "OpenAI",
        OpenAIBase,
        [("Authorization", "Bearer " + key)],
        Setting(c, OpenAIModelKey).GetOr("gpt-4o")))
  }

  /** `CreateProvider`: the provider name is required and is compared after
      `ToLowerInvariant`; "bedrock" is not implemented and any other name
      is reported in its original spelling. */
  function CreateProvider(c: Config): (r: Result<Binding, ConfigError>)
    ensures ProviderKey !in c ==> r == Failure(InvalidOperation(ProviderRequired))
    ensures ProviderKey in c ==>
      var lower := Text.ToLowerInvariant(c[ProviderKey]);
      && (lower == "claude" ==> r == CreateClaudeProvider(c))
      && (lower == "openai" ==> r == CreateOpenAIProvider(c))
      && (lower == "bedrock" ==> r == Failure(NotImplemented(BedrockMissing)))
      && (lower !in {"claude", "openai", "bedrock"} ==>
            r == Failure(InvalidOperation(UnknownPrefix + c[ProviderKey])))
  {
    match Setting(c, ProviderKey)
    case None => Failure(InvalidOperation(ProviderRequired))
    case Some(provider) =>
      var lower := Text.ToLowerInvariant(provider);
      if lower == "claude" then CreateClaudeProvider(c)
      else if lower == "openai" then CreateOpenAIProvider(c)
      else if lower == "bedrock" then Failure(NotImplemented(BedrockMissing))
      else Failure(InvalidOperation(UnknownPrefix + provider))
  }

  /** Vendor selection is case-insensitive in both directions: with its key
      configured, a vendor is chosen exactly when the provider name is its
      name in some casing; "bedrock" in any casing is not implemented; any
      other name is unknown. */
  lemma SelectionIgnoresCase(c: Config)
    requires ProviderKey in c
    ensures var name := c[ProviderKey];
      && (ClaudeKeyKey in c ==>
            (CreateProvider(c).Success? && CreateProvider(c).value.vendor == Claude <==> SpelledAs(name, "claude")))
      && (OpenAIKeyKey in c ==>
            (CreateProvider(c).Success? && CreateProvider(c).value.vendor == OpenAI <==> SpelledAs(name, "openai")))
      && (CreateProvider(c) == Failure(NotImplemented(BedrockMissing)) <==> SpelledAs(name, "bedrock"))
      && (CreateProvider(c) == Failure(InvalidOperation(UnknownPrefix + name)) <==>
            !SpelledAs(name, "claude") && !SpelledAs(name, "openai") && !SpelledAs(name, "bedrock"))
  {
    LowerWords();
    var name := c[ProviderKey];
    Text.ToLowerMatchesAnyCasing(name, "claude");
    Text.ToLowerMatchesAnyCasing(name, "openai");
    Text.ToLowerMatchesAnyCasing(name, "bedrock");
  }

  /** The built adapter as a provider: the vendor's adapter with the
      binding's default model, sending through the transport made from the
      binding's client settings. */
  function AsProvider(
    b: Binding,
    claudeTransport: Binding -> ClaudeProvider.Transport,
    openAITransport: Binding -> OpenAIProvider.Transport,
    parse: OpenAIProvider.Parser): (p: Llm.Provider)
    ensures b.vendor == Claude ==> forall req :: p(req) == ClaudeProvider.Send(b.defaultModel, claudeTransport(b), req)
    ensures b.vendor == OpenAI ==> forall req :: p(req) == OpenAIProvider.Send(b.defaultModel, openAITransport(b), parse, req)
  {
    match b.vendor
    case Claude => ClaudeProvider.AsProvider(b.defaultModel, claudeTransport(b))
    case OpenAI => OpenAIProvider.AsProvider(b.defaultModel, openAITransport(b), parse)
  }
}
