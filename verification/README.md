# Jarvis agent core, modelled in Dafny

This project models the core of the Jarvis personal-assistant agent service:

- **The `/chat` conversation loop.** The request text seeds the
  conversation. The registered tools are offered to the language-model
  provider. Each round branches on the response's stop reason:
  - "end_turn": the text of the first text block is the answer;
  - "tool_use": every complete tool call runs, and its result or its
    error goes back as a tool result;
  - anything else: the request ends as a problem.
- **The tool registry.** Tools are registered, listed as definitions and
  dispatched by name.
- **The two provider adapters.** The Claude adapter passes the request and
  the response through. The OpenAI adapter really translates:
  - the system prompt becomes a leading message;
  - tools are wrapped as functions;
  - tool calls with JSON-text arguments become `tool_use` blocks;
  - `finish_reason` is renamed to the canonical stop reasons.
- **The provider factory.** It reads a configuration map and picks the
  vendor by name, in any casing.
- **The two internal tools.** `query_events` selects a memory-service URL.
  `add_shopping_item` builds the query string of a POST.
- **The two value objects.** `EmailAddress` and `Money` validate what they
  are constructed from.

Every operation is a pure function over immutable datatypes:

- a C# null is `Option.None`. This includes every reference member of a
  vendor response record, whatever its declared nullability, and each
  element of its lists, because the deserializer binds a missing or null
  member to null;
- a thrown exception is `Result.Failure` carrying the exception's message;
- a tool input (`Dictionary<string, object>` holding `JsonElement`s) is a
  map to a recursive JSON value.

Three things the core calls but does not define are parameters of the
functions that use them:

- HTTP exchanges are `Http.Exchange` values returned by a transport
  function;
- decoding a response body is the transport function's job;
- parsing a tool call's JSON arguments is a parser function.

The loop, `while (true)` in the source, is `AgentLoop.Converse`, a
recursion bounded by a fuel argument. One round is the pure function
`AgentLoop.Step`.

Modules:

| module | file | models |
|---|---|---|
| Basics | basics.dfy | `Option` and `Result` |
| Text | text.dfy | .NET string primitives: white space, `IsNullOrEmpty`, `ToLowerInvariant`, `Split`, `Join` |
| Json | json.dfy | JSON values, tool inputs, `JsonElement.ToString()` |
| Http | http.dfy | outcomes of an exchange, `EnsureSuccessStatusCode` |
| UriEscape | uri_escape.dfy | `Uri.EscapeDataString` as percent-encoding (sections 2.1 and 2.3 of RFC 3986), and its decoding |
| Llm | llm.dfy | the canonical messages, tools, blocks, responses and options |
| ToolExecutor | tool_executor.dfy | the tool registry |
| QueryEventsTool | query_events_tool.dfy | `query_events` |
| AddShoppingItemTool | add_shopping_item_tool.dfy | `add_shopping_item` |
| ClaudeProvider | claude_provider.dfy | the Anthropic Messages API adapter |
| OpenAIProvider | openai_provider.dfy | the OpenAI Chat Completions adapter |
| ProviderFactory | provider_factory.dfy | `LlmProviderFactory` |
| AgentLoop | agent_loop.dfy | the `/chat` handler |
| ValueObjects | value_objects.dfy | `EmailAddress` and `Money` |
| EndToEnd | end_to_end.dfy | whole conversations through the loop, and the loop fed by the OpenAI translation |

## Model

| member | source | states |
|---|---|---|
| AgentLoop.Seed | src/AgentService/Program.cs:45-48 | the conversation starts with exactly one message, role "user", carrying the request text |
| AgentLoop.OfferedTools | src/AgentService/Program.cs:50-52 | one offered tool per registry definition, in order, with name, description and schema copied |
| AgentLoop.OfferedToolsAreRegistered | src/AgentService/Program.cs:50-52 | a tool is offered exactly when its name is registered, and no name is offered twice |
| AgentLoop.AnswerText | src/AgentService/Program.cs:122-123 | the answer of an "end_turn" response, found by scanning the blocks in order; what it yields is stated by `AgentLoop.AnswerIsFirstText` |
| AgentLoop.AnswerIsFirstText | src/AgentService/Program.cs:120-124 | the answer is the text of the first block of type "text"; it is "No response" when that text is null or when no block is a text block |
| AgentLoop.ResultFor | src/AgentService/Program.cs:146-166 | a call's result carries the block's id; it holds the tool's output without an error flag when the tool succeeds; it holds "Error: " plus the failure message, flagged as an error, when the tool fails |
| AgentLoop.UnknownToolIsReported | src/AgentService/Program.cs:146-166 | a call to an unregistered tool yields an error result holding the registry's not-found message, and does not stop the round |
| AgentLoop.IsCall | src/AgentService/Program.cs:142 | a block is executed exactly when its type is "tool_use" and its name and input are both non-null; a null type is never a call |
| AgentLoop.CallPositions | src/AgentService/Program.cs:142 | the positions of the complete `tool_use` blocks (type "tool_use" with non-null name and input), increasing, all of them and nothing else |
| AgentLoop.ToolResults | src/AgentService/Program.cs:131-167 | the tool results of a round, collected block by block; what they are is stated by `AgentLoop.ResultsAtCallPositions` and the lemmas after it |
| AgentLoop.ResultsAtCallPositions | src/AgentService/Program.cs:131-167 | there is exactly one result per complete call block, in block order: the k-th result answers the k-th call block |
| AgentLoop.ResultsCarryCallIds | src/AgentService/Program.cs:149-165 | the k-th result is a tool result carrying the id of the k-th call block |
| AgentLoop.ResultsPerBlock | src/AgentService/Program.cs:131-167 | when every block is a complete call, N blocks give N results, each answering its own block |
| AgentLoop.NoCallsNoResults | src/AgentService/Program.cs:142 | a round in which no block is a complete call runs no tool and gets no result |
| AgentLoop.ToolResultsAppend | src/AgentService/Program.cs:131-167 | the blocks are processed independently: the results for two runs of blocks put together are the first run's results followed by the second's |
| AgentLoop.CallsAfterOtherBlocks | src/AgentService/Program.cs:131-167 | blocks that are not calls, placed before the calls, add no results; each call still gets its own result, in order |
| AgentLoop.ResultsAnswerCalls | src/AgentService/Program.cs:131-167 | when all non-call blocks come before the calls, the results answer the calls' ids one for one, in order |
| AgentLoop.Echoes | src/AgentService/Program.cs:133-140 | the assistant echo has one entry per response block, in order, text blocks included |
| AgentLoop.RunBlocks | src/AgentService/Program.cs:128-168 | the block-by-block loop computes exactly the echo and the tool results that `Step` appends |
| AgentLoop.Step | src/AgentService/Program.cs:118-176 | "end_turn" finishes with the answer; "tool_use" continues with the messages grown by exactly two, the assistant echo then the user tool results, earlier messages unchanged; any other stop reason, null included, is unexpected and carries that reason |
| AgentLoop.Converse | src/AgentService/Program.cs:116-183 | with fuel left, each round asks the provider once: a provider failure (any exception) ends with the problem "Failed to process chat request"; "end_turn" ends with the answer of the first text block; any stop reason other than "end_turn" and "tool_use" ends with the problem "Unexpected stop reason: " plus the reason, empty for null; every problem has status 500; without fuel the conversation is returned as it stands |
| AgentLoop.Chat | src/AgentService/Program.cs:45-183 | a conversation cut short by the fuel bound has grown by two messages per round and still starts with the request text |
| AgentLoop.RoundsOnlyAppend | src/AgentService/Program.cs:170-171 | rounds only append: after any number of tool rounds, the conversation keeps the messages it started from as a prefix, two more per round |
| AgentLoop.ToolRoundsContinue | src/AgentService/Program.cs:126-172 | a tool round never ends the conversation, whatever its tools did: the loop asks the provider again with the extended conversation |
| ToolExecutor.Empty | src/AgentService/Tools/ToolExecutor.cs:5 | a new registry is valid and knows no tool |
| ToolExecutor.HasTool | src/AgentService/Tools/ToolExecutor.cs:27 | a name is known exactly when the dictionary holds it; `ToolExecutor.RegisterKnows` and `ToolExecutor.BuildKnowsRegisteredNames` state which names that is |
| ToolExecutor.Lookup | src/AgentService/Tools/ToolExecutor.cs:21 | a tool is found exactly for registered names |
| ToolExecutor.RegisterTool | src/AgentService/Tools/ToolExecutor.cs:7-10 | the tool is bound under its name, replacing an earlier one; every other name keeps its binding; a new name is enumerated last; the registry stays valid |
| ToolExecutor.RegisterKnows | src/AgentService/Tools/ToolExecutor.cs:7-27 | after registration, `HasTool` holds for exactly the old names plus the new one |
| ToolExecutor.RegisterBinds | src/AgentService/Tools/ToolExecutor.cs:9 | registration rebinds the tool's own name and no other name |
| ToolExecutor.GetToolDefinitions | src/AgentService/Tools/ToolExecutor.cs:12-17 | one definition per registered name, each name once, carrying that tool's name, description and schema |
| ToolExecutor.ExecuteTool | src/AgentService/Tools/ToolExecutor.cs:19-25 | an unregistered name fails with "Tool '<name>' not found" and runs nothing; a registered name runs its tool on the unchanged input and returns its outcome unchanged |
| ToolExecutor.Build | src/AgentService/Tools/ToolExecutor.cs:7-10 | any sequence of registrations leaves a valid registry |
| ToolExecutor.BuildKnowsRegisteredNames | src/AgentService/Tools/ToolExecutor.cs:27 | after a sequence of registrations, `HasTool` holds exactly for the names some registration used |
| ToolExecutor.LastNamed | src/AgentService/Tools/ToolExecutor.cs:9 | the tool found by a backwards scan of the registrations has the name searched for |
| ToolExecutor.BuildBindsLastRegistration | src/AgentService/Tools/ToolExecutor.cs:9-24 | a name dispatches to the last tool registered under it |
| ToolExecutor.BuildEnumeratesFirstRegistrations | src/AgentService/Tools/ToolExecutor.cs:12-17 | definitions are listed in the order of each name's first registration |
| Llm.EffectiveOptions | src/Shared/Llm/ILlmProvider.cs:44-48 | absent options are `new LlmOptions()`: 4096 tokens, temperature 1.0, no model |
| Llm.ChosenModel | src/Shared/Llm/Providers/ClaudeProvider.cs:25-36 | the options' model when one is given, otherwise the adapter's default |
| ClaudeProvider.ToWireTools | src/Shared/Llm/Providers/ClaudeProvider.cs:27-32 | tools map one for one and in order to name, description and `input_schema`; an absent list stays absent |
| ClaudeProvider.WireToolsKeepTools | src/Shared/Llm/Providers/ClaudeProvider.cs:27-32 | mapping the sent tool list back gives exactly the caller's tools |
| ClaudeProvider.BuildRequest | src/Shared/Llm/Providers/ClaudeProvider.cs:25-42 | the model is the chosen one; the token limit and temperature come from the effective options; the system prompt goes into its own field; the messages pass through unchanged |
| ClaudeProvider.Translate | src/Shared/Llm/Providers/ClaudeProvider.cs:57-68 | a response is produced exactly when the block list, each block and the usage are present; a null block list fails first, with the `ArgumentNullException` of `Select`; a null block or a null usage then fails with the `NullReferenceException`; on success the id is copied, null or not, the blocks map one for one and in order with every field kept, the stop reason passes through untranslated and the token counts are copied |
| ClaudeProvider.TranslateKeepsBlocks | src/Shared/Llm/Providers/ClaudeProvider.cs:59-65 | for a body whose members are present, mapping the canonical blocks back gives the vendor's blocks: no field is lost |
| ClaudeProvider.Send | src/Shared/Llm/Providers/ClaudeProvider.cs:44-73 | a response comes exactly from a success status with a decoded body whose dereferenced members are present, and is that body's translation; a failed request or a non-success status fails with "Claude API request failed: " plus the message; a null body fails with "No response from Claude"; a malformed body, a timeout and a null member fail with their own messages, unprefixed |
| ClaudeProvider.AsProvider | src/Shared/Llm/Providers/ClaudeProvider.cs:12-23 | the adapter answers every request with `ClaudeProvider.Send` for its default model and client |
| OpenAIProvider.BuildMessages | src/Shared/Llm/Providers/OpenAIProvider.cs:28-33 | a non-empty system prompt becomes one leading "system" message; a null or empty one adds nothing; the caller's messages follow unchanged |
| OpenAIProvider.SystemPromptLeads | src/Shared/Llm/Providers/OpenAIProvider.cs:30-33 | with a prompt, there is exactly one more message: the system message first, then the caller's messages in order |
| OpenAIProvider.ToWireTools | src/Shared/Llm/Providers/OpenAIProvider.cs:35-44 | each tool, in order, becomes `{type: "function", function: {name, description, parameters}}`; an absent list stays absent |
| OpenAIProvider.BuildRequest | src/Shared/Llm/Providers/OpenAIProvider.cs:26-53 | the model is the chosen one; the options are the effective ones; the message list is the built one; the tools are the wrapped ones |
| OpenAIProvider.StopReason | src/Shared/Llm/Providers/OpenAIProvider.cs:93-98 | "stop" becomes "end_turn", "tool_calls" becomes "tool_use", and anything else, null included, passes through |
| OpenAIProvider.StopReasonCases | src/Shared/Llm/Providers/OpenAIProvider.cs:93-98 | in reverse: a canonical "end_turn" comes only from "stop" or from "end_turn" itself, and likewise for "tool_use"; null stays null |
| OpenAIProvider.ParseArguments | src/Shared/Llm/Providers/OpenAIProvider.cs:80-82 | a JSON object becomes a dictionary, the literal null becomes the empty dictionary, and anything else fails |
| OpenAIProvider.CallBlock | src/Shared/Llm/Providers/OpenAIProvider.cs:80-89 | a null call or a null function fails with the `NullReferenceException`; null arguments fail with the deserializer's `ArgumentNullException`; a parse failure fails with its message; otherwise the block is a `tool_use` block with the call's id and function name, null or not, and the parsed input |
| OpenAIProvider.ToolUseBlocks | src/Shared/Llm/Providers/OpenAIProvider.cs:76-91 | one block per call, in order, each the call's `CallBlock`; it fails exactly when some call does not translate, with the first such error |
| OpenAIProvider.TextBlocks | src/Shared/Llm/Providers/OpenAIProvider.cs:73-74 | one text block exactly when the content is non-empty |
| OpenAIProvider.FirstChoice | src/Shared/Llm/Providers/OpenAIProvider.cs:68-69 | `FirstOrDefault` gives a choice exactly when the list is non-empty and its first element is not null, and then gives that element |
| OpenAIProvider.Translate | src/Shared/Llm/Providers/OpenAIProvider.cs:68-105 | in the source's order: a null choice list fails with the `ArgumentNullException` of `FirstOrDefault`; no first choice, or a null one, fails with "No choices in OpenAI response"; a null message fails with the `NullReferenceException`; a tool call that does not translate fails with its error; a null usage then fails with the `NullReferenceException`; otherwise only the first choice counts, its text block first, then its tool calls, the id and token counts copied and the stop reason translated |
| OpenAIProvider.TranslatedCallsAreComplete | src/Shared/Llm/Providers/OpenAIProvider.cs:73-91 | the optional first block is a text block; every block after it comes from a present call with a present function and is a `tool_use` block with that call's id and function name and a present input |
| OpenAIProvider.Send | src/Shared/Llm/Providers/OpenAIProvider.cs:55-110 | a response comes exactly from a success status with a decoded body that translates, and is that translation; a failed request or a non-success status fails with "OpenAI API request failed: " plus the message; a null body fails with "No response from OpenAI"; a malformed body, a timeout and every translation failure propagate with their own messages, unprefixed |
| OpenAIProvider.AsProvider | src/Shared/Llm/Providers/OpenAIProvider.cs:13-23 | the adapter answers every request with `OpenAIProvider.Send` for its default model, client and parser |
| ProviderFactory.Setting | src/Shared/Llm/LlmProviderFactory.cs:19 | a missing key reads as null |
| ProviderFactory.CreateProvider | src/Shared/Llm/LlmProviderFactory.cs:17-29 | a missing provider fails with "Llm:Provider configuration is required"; otherwise the lower-cased name selects Claude, OpenAI, "bedrock" (not implemented) or "Unknown LLM provider: " with the name as configured |
| ProviderFactory.SelectionIgnoresCase | src/Shared/Llm/LlmProviderFactory.cs:22-28 | each vendor is chosen exactly when the name is its name in some casing, and the same holds for "bedrock"; every other name is unknown |
| ProviderFactory.CreateClaudeProvider | src/Shared/Llm/LlmProviderFactory.cs:31-43 | the key is required ("Claude API key is required"); the binding uses the "Claude" client at the Anthropic address, with the `x-api-key` and `anthropic-version` 2023-06-01 headers; the model is the configured one, else "claude-3-5-sonnet-20241022" |
| ProviderFactory.CreateOpenAIProvider | src/Shared/Llm/LlmProviderFactory.cs:45-56 | the key is required ("OpenAI API key is required"); the binding uses the "OpenAI" client at the OpenAI address with a bearer-token header; the model is the configured one, else "gpt-4o" |
| ProviderFactory.AsProvider | src/Shared/Llm/LlmProviderFactory.cs:42-55 | the built adapter is the chosen vendor's adapter, bound to the binding's default model |
| QueryEventsTool.InputSchema | src/AgentService/Tools/InternalTools/QueryEventsTool.cs:11-37 | the schema declares query, source, type and limit, and requires nothing |
| QueryEventsTool.Limit | src/AgentService/Tools/InternalTools/QueryEventsTool.cs:49 | the limit is the text of the "limit" argument, or "20" when it is missing or null |
| QueryEventsTool.SelectUrl | src/AgentService/Tools/InternalTools/QueryEventsTool.cs:51-59 | a given query selects the search URL; otherwise a given source selects the by-source URL; otherwise a given type selects the by-type URL; otherwise the recent URL. Filters are escaped; the limit is not |
| QueryEventsTool.Url | src/AgentService/Tools/InternalTools/QueryEventsTool.cs:46-59 | the URL is selected from the displayed "query", "source" and "type" arguments and the limit; how is stated by `QueryEventsTool.SelectUrl` and the lemmas after it |
| QueryEventsTool.OnlyGivenFiltersMatter | src/AgentService/Tools/InternalTools/QueryEventsTool.cs:52-59 | the URL depends only on which filters are given and on their values |
| QueryEventsTool.EmptyFilterIsAbsent | src/AgentService/Tools/InternalTools/QueryEventsTool.cs:46-59 | a query, source or type that is empty or null selects the same URL as a missing one |
| QueryEventsTool.QueryOverridesFilters | src/AgentService/Tools/InternalTools/QueryEventsTool.cs:52-53 | with a query given, changing source or type does not change the URL |
| QueryEventsTool.SearchQuerySplits | src/AgentService/Tools/InternalTools/QueryEventsTool.cs:53 | the escaped query ends exactly where "&limit=" begins, so it can be read back |
| QueryEventsTool.Execute | src/AgentService/Tools/InternalTools/QueryEventsTool.cs:44-66 | a success response's body is the result; any other outcome fails with its own message |
| QueryEventsTool.MakeTool | src/AgentService/Tools/InternalTools/QueryEventsTool.cs:9-11 | the registered tool has the name "query_events" and this schema, and runs `Execute` |
| AddShoppingItemTool.InputSchema | src/AgentService/Tools/InternalTools/AddShoppingItemTool.cs:12-34 | the schema declares item, quantity and notes, and requires only "item" |
| AddShoppingItemTool.ParamsPresence | src/AgentService/Tools/InternalTools/AddShoppingItemTool.cs:48-52 | the name parameter comes first; quantity is present exactly when given; notes are present exactly when given; notes always follow quantity |
| AddShoppingItemTool.QueryString | src/AgentService/Tools/InternalTools/AddShoppingItemTool.cs:48 | the query string starts with '?' |
| AddShoppingItemTool.QueryStringJoinsParams | src/AgentService/Tools/InternalTools/AddShoppingItemTool.cs:48-52 | building the string piece by piece gives '?' followed by the rendered parameters joined with '&' |
| AddShoppingItemTool.QueryStringSplits | src/AgentService/Tools/InternalTools/AddShoppingItemTool.cs:48-52 | splitting the query string on '&' gives back exactly the rendered parameters: no value leaks into another parameter |
| AddShoppingItemTool.ParamValuesDecode | src/AgentService/Tools/InternalTools/AddShoppingItemTool.cs:48-52 | each rendered parameter is its key and '=' followed by a value that decodes to the UTF-8 of the given text |
| AddShoppingItemTool.Path | src/AgentService/Tools/InternalTools/AddShoppingItemTool.cs:54 | the POST goes to the list's items resource followed by the query string; `AddShoppingItemTool.PathSplits` states how it reads back |
| AddShoppingItemTool.PathSplits | src/AgentService/Tools/InternalTools/AddShoppingItemTool.cs:54 | for a list id without '?', the first '?' of the path ends "/lists/<list>/items", and what follows it is exactly the query string |
| AddShoppingItemTool.Confirmation | src/AgentService/Tools/InternalTools/AddShoppingItemTool.cs:57 | the confirmation quotes the item as given, unescaped; `EndToEnd.MilkIsAdded` shows it for "milk" |
| AddShoppingItemTool.Execute | src/AgentService/Tools/InternalTools/AddShoppingItemTool.cs:42-57 | a missing or null "item" fails before any request; otherwise the item, quantity and notes are POSTed to "/lists/<list>/items" plus the query string; success yields "Added '<item>' to shopping list" with the item unescaped; any failure surfaces with its own message |
| AddShoppingItemTool.MakeTool | src/AgentService/Tools/InternalTools/AddShoppingItemTool.cs:10-12 | the registered tool has the name "add_shopping_item" and this schema, and runs `Execute` |
| Json.Display | src/AgentService/Tools/InternalTools/QueryEventsTool.cs:46-49 | `?.ToString()` is null exactly for a JSON null and gives a string's own text |
| Json.Argument | src/AgentService/Tools/InternalTools/QueryEventsTool.cs:46-48 | `GetValueOrDefault(key)?.ToString()` is null for a missing key, otherwise the value's text |
| Json.ToDictionaryKeys | src/Shared/Llm/Providers/OpenAIProvider.cs:80-82 | the dictionary decoded from an object binds exactly the keys that occur |
| Json.ToDictionaryLastWins | src/Shared/Llm/Providers/OpenAIProvider.cs:80-82 | a key that occurs more than once is bound to its last value |
| Http.EnsureSuccess | src/AgentService/Tools/InternalTools/QueryEventsTool.cs:61-62 | the body is available exactly after a 2xx status; a non-success status and a failed request surface as HTTP faults; other failures stay other failures |
| UriEscape.EscapeDataString | src/AgentService/Tools/InternalTools/QueryEventsTool.cs:53-57 | the escaped text is made only of unreserved characters and '%', is at least as long as the original, and is empty only when the original is |
| UriEscape.EscapeIsIdentityIffUnreserved | src/AgentService/Tools/InternalTools/AddShoppingItemTool.cs:48 | escaping changes nothing exactly when every character is unreserved |
| UriEscape.EscapeAppend | src/AgentService/Tools/InternalTools/AddShoppingItemTool.cs:48-52 | escaping a concatenation escapes each part |
| UriEscape.DecodeEscape | src/AgentService/Tools/InternalTools/AddShoppingItemTool.cs:48-52 | percent-decoding the escaped text gives exactly the UTF-8 bytes of the original |
| Text.ToLowerInvariant | src/Shared/Llm/LlmProviderFactory.cs:22 | the result has the same length and lowers each character on its own |
| Text.ToLowerMatchesAnyCasing | src/Shared/Llm/LlmProviderFactory.cs:22-25 | the lowered name equals a lower-case ASCII word exactly when the name is that word in some casing |
| Text.SplitJoin | src/AgentService/Tools/InternalTools/AddShoppingItemTool.cs:48-52 | splitting undoes joining when no part contains the separator |
| ValueObjects.PatternIsEmail | src/Shared/Domain/ValueObjects/EmailAddress.cs:8-10 | the anchored pattern matches exactly the strings with one '@' that is not first, no white space, and a '.' after the '@' that is neither the first nor the last character of the domain |
| ValueObjects.CreateEmail | src/Shared/Domain/ValueObjects/EmailAddress.cs:14-23 | a blank value fails with "Email address cannot be empty." before the pattern check; a value the pattern rejects fails with "Invalid email address: " plus the value; an accepted value is stored unchanged |
| ValueObjects.EmailToString | src/Shared/Domain/ValueObjects/EmailAddress.cs:25 | `ToString` gives the stored text; `ValueObjects.EmailRoundTrip` states that it is the accepted input |
| ValueObjects.EmailAsString | src/Shared/Domain/ValueObjects/EmailAddress.cs:27 | the conversion to string gives the stored text; `ValueObjects.EmailRoundTrip` states that it is the accepted input |
| ValueObjects.EmailRoundTrip | src/Shared/Domain/ValueObjects/EmailAddress.cs:22-27 | `ToString` and the string conversion give back the accepted text, and that text is accepted again as the same address |
| ValueObjects.CreateEmailAsWritten | src/Shared/Domain/ValueObjects/EmailAddress.cs:8-23 | the constructor with .NET's `$`: the same checks, but the pattern also matches before one final newline |
| ValueObjects.AsWrittenAddsTrailingNewline | src/Shared/Domain/ValueObjects/EmailAddress.cs:8-19 | as written, the constructor accepts exactly the intended addresses plus each of them followed by one '\n' |
| ValueObjects.TrailingNewlineAccepted | src/Shared/Domain/ValueObjects/EmailAddress.cs:8-19 | "a@b.c\n" is accepted and stored with its newline, while the intended check rejects it |
| ValueObjects.CreateMoney | src/Shared/Domain/ValueObjects/Money.cs:10-20 | a negative amount fails first with "Money amount cannot be negative."; then a blank currency fails with "Currency is required."; zero is valid; valid inputs are stored unchanged |
| ValueObjects.MoneyRoundTrip | src/Shared/Domain/ValueObjects/Money.cs:10-20 | a valid amount of money is rebuilt unchanged from its own fields |
| EndToEnd.ShoppingRegistryRuns | src/AgentService/Program.cs:148 | the loop's dispatch on "add_shopping_item" runs the shopping tool |
| EndToEnd.MilkIsAdded | src/AgentService/Tools/InternalTools/AddShoppingItemTool.cs:42-57 | adding "milk" against an accepting service yields "Added 'milk' to shopping list" |
| EndToEnd.MilkResult | src/AgentService/Program.cs:142-154 | a single add-milk call yields one successful result carrying the call's id |
| EndToEnd.AddMilkScenario | src/AgentService/Program.cs:116-172 | "add milk to my list" takes a tool round and then a text round, and answers with the provider's text |
| EndToEnd.NoToolScenario | src/AgentService/Program.cs:118-124 | a provider that answers at once ends the chat after one round, whatever the registry holds |
| EndToEnd.TranslatedBlocks | src/Shared/Llm/Providers/OpenAIProvider.cs:76-91 | a translated response is at most one leading block the loop does not execute, then one block per tool call with the call's id; the loop executes a call's block exactly when the call names its function |
| EndToEnd.OpenAICallsAllRun | src/Shared/Llm/Providers/OpenAIProvider.cs:73-91 | when every tool call names its function, every call the OpenAI adapter translates is executed by the loop: one result per call, in order, each answering its call's id |

## Left out

- HTTP sending and receiving, and decoding response bodies: each adapter and tool receives the outcome of its exchange from a transport function given as a parameter. The transport is a pure function, so two identical requests get identical outcomes.
- Parsing the JSON text of an OpenAI tool call's arguments: it is a parser function given as a parameter.
- Serializing requests to JSON: the vendor request records are datatypes and are not encoded.
- `JsonElement.ToString()` of arrays and objects prints their raw JSON text. The model prints a compact serialization instead, which differs when the provider's text had white space.
- Temperature is a .NET `double` and is carried as a real, unchanged.
- `Money.ToString`'s "F2" formatting is not modelled; `decimal` is a real.
- `ToLowerInvariant` lowers the ASCII letters and the Kelvin sign (U+212A) only. Other non-ASCII letters keep their case, which cannot make "claude", "openai" or "bedrock" match.
- Configuration keys are exact. .NET configuration keys are case-insensitive, but the factory reads only fixed, correctly cased keys.
- Header validation by `DefaultRequestHeaders.Add` is not modelled: a key that .NET would reject as a header value is accepted.
- The shopping list id is the configured `Guid`'s text, given as a parameter. `Guid.Parse`, `Guid.NewGuid` and the service base addresses (src/AgentService/Program.cs:9-17) are not modelled.
- The text of the system prompt (src/AgentService/Program.cs:54-114) is a parameter.
- Cancellation tokens, async execution and logging.
- Dependency injection, and the `/tools` and `/health` routes of the agent service.
- AgentLoop.Converse: the `while (true)` loop is bounded by a fuel argument. A run that the source would continue past the bound ends as `Unfinished` with the conversation so far.
- OpenAIProvider.ParseArguments: the message for JSON that is neither an object nor null is `NotAnObject`. That is the shape of .NET's message, not its exact text.
- QueryEventsTool.Limit: the limit is inserted into the URL as given, without escaping, exactly as in the source. The model does not prove that a limit containing '&' or '#' breaks the URL.
- The messages of `NullReferenceException` and `ArgumentNullException` are .NET's English texts, as `Basics.NullReference` and `Basics.ArgumentNull` spell them. The model makes no claim about localized runtimes.
- AddShoppingItemTool.Execute: the null-item message is .NET's `NullReferenceException` text. The source throws on a JSON null because `ToString()!` on a null reference dereferences it.
- The database layer, schema validation, the other services and the tests are not part of this model.

## Findings

| source | as written | input that shows it | evidently intended | confidence | as-written member | corrected member |
|---|---|---|---|---|---|---|
| src/Shared/Domain/ValueObjects/EmailAddress.cs:8-19 | the pattern ends with `$`. Without the multi-line option, .NET's `$` also matches just before a final '\n', so `IsMatch` accepts an address followed by one newline, and the constructor stores the newline | "a@b.c\n" | the whole value is an address: `\z` instead of `$` | high, not executed | ValueObjects.CreateEmailAsWritten, ValueObjects.TrailingNewlineAccepted | ValueObjects.CreateEmail |
