/** The `query_events` tool (`QueryEventsTool`): it picks one of four
    memory-service endpoints from its arguments, by precedence query, then
    source, then type, then none, and returns the response body. The GET is
    a transport function given as a parameter. */
module QueryEventsTool {
  import opened Basics
  import Json
  import Http
  import Text
  import UriEscape
  import ToolExecutor

  const Name := "query_events"
  const Description := "Search and retrieve events from memory based on filters like source, type, or text search"
  const DefaultLimit := "20"

  /** The published JSON Schema: four optional properties, nothing
      required. */
  function InputSchema(): (schema: Json.Value)
    ensures Json.RequiredFields(schema) == []
    ensures Json.PropertyNames(schema) == ["query", "source", "type", "limit"]
  {
    Json.Object([
      ("type", Json.Str("object")),
      ("properties", Json.Object([
        ("query", Json.StringProperty("Full-text search query to find relevant events")),
        ("source", Json.StringProperty("Filter by event source (email, calendar, bank, etc.)")),
        ("type", Json.StringProperty("Filter by event type (email_received, payment_due, etc.)")),
        ("limit", Json.Object([
          ("type", Json.Str("number")),
          ("description", Json.Str("Maximum number of results to return (default 20)"))]))]))])
  }

  /** The limit: the text of the "limit" argument as given (not escaped),
      or "20" when it is missing or null. */
  function Limit(input: Json.Input): (limit: string)
    ensures Json.Argument(input, "limit").None? ==> limit == DefaultLimit
    ensures Json.Argument(input, "limit").Some? ==> limit == Json.Argument(input, "limit").value
  {
    Json.Argument(input, "limit").GetOr(DefaultLimit)
  }

  /** Whether an argument counts as given: present, not null, not empty. */
  predicate Given(input: Json.Input, key: string) {
    !Text.IsNullOrEmpty(Json.Argument(input, key))
  }

  /** The endpoint chosen from the argument texts. A given query selects
      the search endpoint whatever the other filters say; otherwise a given
      source selects the by-source endpoint; otherwise a given type selects
      the by-type endpoint; otherwise the recent endpoint. Filter values are
      escaped, the limit is not. */
  function SelectUrl(query: Option<string>, source: Option<string>, eventType: Option<string>, limit: string): (url: string)
    ensures !Text.IsNullOrEmpty(query) ==>
      url == "/memory/search?q=" + UriEscape.EscapeDataString(query.value) + "&limit=" + limit
    ensures Text.IsNullOrEmpty(query) && !Text.IsNullOrEmpty(source) ==>
      url == "/memory/by-source/" + UriEscape.EscapeDataString(source.value) + "?limit=" + limit
    ensures Text.IsNullOrEmpty(query) && Text.IsNullOrEmpty(source) && !Text.IsNullOrEmpty(eventType) ==>
      url == "/memory/by-type/" + UriEscape.EscapeDataString(eventType.value) + "?limit=" + limit
    ensures Text.IsNullOrEmpty(query) && Text.IsNullOrEmpty(source) && Text.IsNullOrEmpty(eventType) ==>
      url == "/memory/recent?limit=" + limit
  {
    if !Text.IsNullOrEmpty(query) then
      "/memory/search?q=" + UriEscape.EscapeDataString(query.value) + "&limit=" + limit
    else if !Text.IsNullOrEmpty(source) then
      "/memory/by-source/" + UriEscape.EscapeDataString(source.value) + "?limit=" + limit
    else if !Text.IsNullOrEmpty(eventType) then
      "/memory/by-type/" + UriEscape.EscapeDataString(eventType.value) + "?limit=" + limit
    else
      "/memory/recent?limit=" + limit
  }

  /** The request URL of a tool input. */
  function Url(input: Json.Input): string {
    SelectUrl(Json.Argument(input, "query"), Json.Argument(input, "source"), Json.Argument(input, "type"), Limit(input))
  }

  /** `ExecuteAsync`: GET the URL; the body of a success response is the
      result, and any failure surfaces with its own message. */
  function Execute(get: string -> Http.Exchange<string>, input: Json.Input): (r: Result<string, string>)
    ensures var ex := get(Url(input));
      && (r.Success? <==> ex.Responded? && Http.IsSuccessStatus(ex.status))
      && (r.Success? ==> r.value == ex.body)
      && (r.Failure? ==> r.error == Http.EnsureSuccess(ex).error.Message())
  {
    match Http.EnsureSuccess(get(Url(input)))
    case Success(body) => Success(body)
    case Failure(fault) => Failure(fault.Message())
  }

  /** The tool as registered, bound to the memory service's GET. */
  function MakeTool(get: string -> Http.Exchange<string>): (t: ToolExecutor.Tool)
    ensures t.name == Name && t.inputSchema == InputSchema()
    ensures forall input :: t.run(input) == Execute(get, input)
  {
    ToolExecutor.Tool(Name, Description, InputSchema(), input => Execute(get, input))
  }

  /** An argument that is not given, in its one canonical form. */
  function Normal(a: Option<string>): (r: Option<string>)
    ensures Text.IsNullOrEmpty(a) ==> r.None?
    ensures !Text.IsNullOrEmpty(a) ==> r == a
  {
    if Text.IsNullOrEmpty(a) then None else a
  }

  /** Only whether a filter is given, and its value when it is, matters:
      an empty filter, a null one and a missing one select the same URL. */
  lemma {:induction false} OnlyGivenFiltersMatter(q: Option<string>, s: Option<string>, t: Option<string>, limit: string)
    ensures SelectUrl(q, s, t, limit) == SelectUrl(Normal(q), Normal(s), Normal(t), limit)
  {
  }

  /** An empty or null filter is treated exactly like a missing one. */
  lemma EmptyFilterIsAbsent(input: Json.Input, key: string, blank: Json.Value)
    requires key == "query" || key == "source" || key == "type"
    requires blank == Json.Str("") || blank == Json.Null
    ensures Url(input[key := blank]) == Url(input - {key})
  {
    var a := input[key := blank];
    var b := input - {key};
    var keys := ["query", "source", "type"];
    assert Json.Argument(a, "limit") == Json.Argument(b, "limit");
    assert Normal(Json.Argument(a, key)) == Normal(Json.Argument(b, key)) == None;
    assert forall k :: k in keys && k != key ==> Json.Argument(a, k) == Json.Argument(b, k);
    OnlyGivenFiltersMatter(Json.Argument(a, "query"), Json.Argument(a, "source"), Json.Argument(a, "type"), Limit(a));
    OnlyGivenFiltersMatter(Json.Argument(b, "query"), Json.Argument(b, "source"), Json.Argument(b, "type"), Limit(b));
  }

  /** A given query fixes the URL whatever source and type say. */
  lemma QueryOverridesFilters(input: Json.Input, source: Json.Value, eventType: Json.Value)
    requires Given(input, "query")
    ensures Url(input["source" := source]["type" := eventType]) == Url(input)
  {
    var a := input["source" := source]["type" := eventType];
    assert Json.Argument(a, "query") == Json.Argument(input, "query");
    assert Json.Argument(a, "limit") == Json.Argument(input, "limit");
  }

  /** The query can be read back from a search URL: it is the escaped
      value, and escaping leaves no '&' in it, so it ends exactly where the
      limit parameter begins. */
  lemma SearchQuerySplits(query: string, limit: string)
    requires query != ""
    ensures var url := SelectUrl(Some(query), None, None, limit);
      Text.Split(url[|"/memory/search?q="|..], '&')[0] == UriEscape.EscapeDataString(query)
  {
    var escaped := UriEscape.EscapeDataString(query);
    var tail := escaped + "&limit=" + limit;
    assert SelectUrl(Some(query), None, None, limit)[|"/memory/search?q="|..] == tail;
    assert tail[|escaped|] == '&';
    assert forall j :: 0 <= j < |escaped| ==> tail[j] == escaped[j];
    assert Text.IndexOf(tail, '&') == |escaped|;
    assert tail[..|escaped|] == escaped;
  }
}
