/** The `add_shopping_item` tool (`AddShoppingItemTool`): it adds an item to
    the default shopping list by a POST whose query string carries the
    item's name and, when given, its quantity and notes. The POST is a
    transport function given as a parameter, and the list id is the text of
    the configured list `Guid`. */
module AddShoppingItemTool {
  import opened Basics
  import Json
  import Http
  import Text
  import UriEscape
  import ToolExecutor

  const Name := "add_shopping_item"
  const Description := "Add an item to the shopping list"

  /** The message of the `KeyNotFoundException` for a missing "item". */
  const MissingItem := "The given key 'item' was not present in the dictionary."
  /** The message of the `NullReferenceException` for a null "item". */
  const NullItem := NullReference

  /** The published JSON Schema: three string properties, of which only
      "item" is required. */
  function InputSchema(): (schema: Json.Value)
    ensures Json.RequiredFields(schema) == ["item"]
    ensures Json.PropertyNames(schema) == ["item", "quantity", "notes"]
  {
    Json.Object([
      ("type", Json.Str("object")),
      ("properties", Json.Object([
        ("item", Json.StringProperty("The item to add to the shopping list")),
        ("quantity", Json.StringProperty("Optional quantity (e.g., '2', '1 lb', '500g')")),
        ("notes", Json.StringProperty("Optional notes about the item"))])),
      ("required", Json.Array([Json.Str("item")]))])
  }

  /** The parameters the query string carries, unescaped and in order: the
      name always, then the quantity and the notes when each is given. */
  function Params(item: string, quantity: Option<string>, notes: Option<string>): seq<(string, string)> {
    [("name", item)] + Optional("quantity", quantity) + Optional("notes", notes)
  }

  /** An optional parameter: present when its value is neither null nor
      empty. */
  function Optional(key: string, value: Option<string>): seq<(string, string)> {
    if Text.IsNullOrEmpty(value) then [] else [(key, value.value)]
  }

  /** One parameter as `key=value`, the value escaped. */
  function Render(p: (string, string)): string {
    p.0 + "=" + UriEscape.EscapeDataString(p.1)
  }

  function RenderAll(ps: seq<(string, string)>): (r: seq<string>)
    ensures |r| == |ps|
    ensures forall i :: 0 <= i < |ps| ==> r[i] == Render(ps[i])
  {
    seq(|ps|, i requires 0 <= i < |ps| => Render(ps[i]))
  }

  /** `queryParams += $"&key={...}"` when the value is neither null nor
      empty. */
  function AppendParam(q: string, key: string, value: Option<string>): string {
    if Text.IsNullOrEmpty(value) then q else q + "&" + Render((key, value.value))
  }

  /** The query string, built as the source builds it: the name
      parameter after a '?', then a quantity parameter and a notes
      parameter, each after a '&' and each only when given. */
  function QueryString(item: string, quantity: Option<string>, notes: Option<string>): (q: string)
    ensures |q| > 0 && q[0] == '?'
  {
    AppendParam(AppendParam("?" + Render(("name", item)), "quantity", quantity), "notes", notes)
  }

  /** The request path: the list's items resource, then the query string. */
  function Path(listId: string, item: string, quantity: Option<string>, notes: Option<string>): string {
    "/lists/" + listId + "/items" + QueryString(item, quantity, notes)
  }

  /** The request path reads back as the list's items resource and the
      query string: for a list id without '?' (a `Guid`'s text has none),
      the path's first '?' is where the query string begins. */
  lemma PathSplits(listId: string, item: string, quantity: Option<string>, notes: Option<string>)
    requires forall j :: 0 <= j < |listId| ==> listId[j] != '?'
    ensures var p := Path(listId, item, quantity, notes);
      var resource := "/lists/" + listId + "/items";
      && Text.IndexOf(p, '?') == |resource|
      && p[..|resource|] == resource
      && p[|resource|..] == QueryString(item, quantity, notes)
  {
    var p := Path(listId, item, quantity, notes);
    var resource := "/lists/" + listId + "/items";
    var q := QueryString(item, quantity, notes);
    assert p == resource + q;
    assert p[|resource|] == '?';
    forall j | 0 <= j < |resource|
      ensures p[j] != '?'
    {
      assert p[j] == resource[j];
      if 7 <= j < 7 + |listId| {
        assert resource[j] == listId[j - 7];
      }
    }
  }

  /** The confirmation returned after a successful POST; the item appears
      unescaped. */
  function Confirmation(item: string): string {
    "Added '" + item + "' to shopping list"
  }

  /** `ExecuteAsync`. A missing "item" fails with the dictionary's
      key-not-found message and a null one with a null-reference message,
      before any request; otherwise the item, quantity and notes are POSTed
      and a success status yields the confirmation, while any failure
      surfaces with its own message. */
  function Execute(listId: string, post: string -> Http.Exchange<()>, input: Json.Input): (r: Result<string, string>)
    ensures "item" !in input ==> r == Failure(MissingItem)
    ensures "item" in input && input["item"].Null? ==> r == Failure(NullItem)
    ensures "item" in input && !input["item"].Null? ==>
      var item := Json.Display(input["item"]).value;
      var ex := post(Path(listId, item, Json.Argument(input, "quantity"), Json.Argument(input, "notes")));
      && (r.Success? <==> ex.Responded? && Http.IsSuccessStatus(ex.status))
      && (r.Success? ==> r.value == Confirmation(item))
      && (r.Failure? ==> r.error == Http.EnsureSuccess(ex).error.Message())
  {
    if "item" !in input then Failure(MissingItem)
    else
      var shown := Json.Display(input["item"]);
      if shown.None? then Failure(NullItem)
      else
        var item := shown.value;
        var path := Path(listId, item, Json.Argument(input, "quantity"), Json.Argument(input, "notes"));
        match Http.EnsureSuccess(post(path))
        case Success(_) => Success(Confirmation(item))
        case Failure(fault) => Failure(fault.Message())
  }

  /** The tool as registered, bound to the task service's POST and the
      default list. */
  function MakeTool(listId: string, post: string -> Http.Exchange<()>): (t: ToolExecutor.Tool)
    ensures t.name == Name && t.inputSchema == InputSchema()
    ensures forall input :: t.run(input) == Execute(listId, post, input)
  {
    ToolExecutor.Tool(Name, Description, InputSchema(), input => Execute(listId, post, input))
  }

  /** The name parameter always comes first; a quantity parameter is present
      exactly when a quantity is given, a notes parameter exactly when notes
      are given, and notes always follow the quantity. */
  lemma ParamsPresence(item: string, quantity: Option<string>, notes: Option<string>)
    ensures var ps := Params(item, quantity, notes);
      && ps[0] == ("name", item)
      && ((exists i :: 0 <= i < |ps| && ps[i].0 == "quantity") <==> !Text.IsNullOrEmpty(quantity))
      && ((exists i :: 0 <= i < |ps| && ps[i].0 == "notes") <==> !Text.IsNullOrEmpty(notes))
      && (forall i, j :: 0 <= i < |ps| && 0 <= j < |ps| && ps[i].0 == "quantity" && ps[j].0 == "notes" ==> i < j)
  {
    var ps := Params(item, quantity, notes);
    if !Text.IsNullOrEmpty(quantity) {
      assert ps[1].0 == "quantity";
    }
    if !Text.IsNullOrEmpty(notes) {
      assert ps[|ps| - 1].0 == "notes";
    }
  }

  lemma RenderHasNoAmpersand(p: (string, string))
    requires p.0 in {"name", "quantity", "notes"}
    ensures forall j :: 0 <= j < |Render(p)| ==> Render(p)[j] != '&'
  {
    var escaped := UriEscape.EscapeDataString(p.1);
    var r := Render(p);
    assert r == p.0 + "=" + escaped;
    forall j | |p.0| + 1 <= j < |r|
      ensures r[j] != '&'
    {
      assert r[j] == escaped[j - |p.0| - 1];
    }
  }

  lemma AppendParamJoins(q: string, ps: seq<(string, string)>, key: string, value: Option<string>)
    requires |ps| > 0 && q == "?" + Text.Join(RenderAll(ps), '&')
    ensures AppendParam(q, key, value) == "?" + Text.Join(RenderAll(ps + Optional(key, value)), '&')
  {
    if !Text.IsNullOrEmpty(value) {
      var r := Render((key, value.value));
      Text.JoinSnoc(RenderAll(ps), r, '&');
      assert Optional(key, value) == [(key, value.value)];
      assert RenderAll(ps + [(key, value.value)]) == RenderAll(ps) + [r];
      assert AppendParam(q, key, value) == q + "&" + r;
    } else {
      assert ps + Optional(key, value) == ps;
    }
  }

  /** The incremental construction is the '?' followed by the rendered
      parameters joined by '&'. */
  lemma QueryStringJoinsParams(item: string, quantity: Option<string>, notes: Option<string>)
    ensures QueryString(item, quantity, notes) == "?" + Text.Join(RenderAll(Params(item, quantity, notes)), '&')
  {
    var first := [("name", item)];
    var q := "?" + Render(("name", item));
    assert RenderAll(first) == [Render(("name", item))];
    AppendParamJoins(q, first, "quantity", quantity);
    AppendParamJoins(AppendParam(q, "quantity", quantity), first + Optional("quantity", quantity), "notes", notes);
  }

  /** Splitting the query string after its '?' on '&' gives back exactly
      the rendered parameters, in order: no value can leak into another
      parameter, whatever characters the item, quantity or notes hold. */
  lemma QueryStringSplits(item: string, quantity: Option<string>, notes: Option<string>)
    ensures var q := QueryString(item, quantity, notes);
      |q| >= 1 && Text.Split(q[1..], '&') == RenderAll(Params(item, quantity, notes))
  {
    var ps := Params(item, quantity, notes);
    var rs := RenderAll(ps);
    forall k | 0 <= k < |rs|
      ensures forall j :: 0 <= j < |rs[k]| ==> rs[k][j] != '&'
    {
      RenderHasNoAmpersand(ps[k]);
    }
    Text.SplitJoin(rs, '&');
    QueryStringJoinsParams(item, quantity, notes);
  }

  /** Each parameter's value decodes back to the UTF-8 bytes of the text it
      was given: the escaping loses nothing. */
  lemma ParamValuesDecode(item: string, quantity: Option<string>, notes: Option<string>, k: int)
    requires 0 <= k < |Params(item, quantity, notes)|
    ensures var p := Params(item, quantity, notes)[k];
      var rendered := RenderAll(Params(item, quantity, notes))[k];
      && rendered[..|p.0| + 1] == p.0 + "="
      && UriEscape.PercentDecode(rendered[|p.0| + 1..]) == Some(UriEscape.Utf8String(p.1))
  {
    var p := Params(item, quantity, notes)[k];
    var rendered := Render(p);
    assert rendered[..|p.0| + 1] == p.0 + "=";
    assert rendered[|p.0| + 1..] == UriEscape.EscapeDataString(p.1);
    UriEscape.DecodeEscape(p.1);
  }
}
