/** JSON values as they reach the core: tool arguments decoded from a
    provider's response, and the JSON-Schema documents the tools publish.
    The source keeps them as `Dictionary<string, object>` whose values are
    `JsonElement`s; here they are a recursive datatype. */
module Json {
  import opened Basics

  /** A JSON value. A number keeps its literal text, because the only thing
      the core ever does with a number is print it, and .NET prints a
      number element as its original text. An object keeps its members in
      document order. */
  datatype Value =
    | Null
    | Bool(b: bool)
    | Number(raw: string)
    | Str(s: string)
    | Array(items: seq<Value>)
    | Object(members: seq<(string, Value)>)

  /** A tool's input: `Dictionary<string, object>`. */
  type Input = map<string, Value>

  /** What a JSON parser makes of a text: a value, or a parse error with its
      message. The parser itself is not modelled. */
  datatype Parsed = Parsed(value: Value) | ParseError(message: string)

  /** Decoding an object into a dictionary, member by member: each member
      binds its key, replacing any earlier binding. */
  function ToDictionary(members: seq<(string, Value)>): Input
    decreases |members|
  {
    if |members| == 0 then map[]
    else
      var last := members[|members| - 1];
      ToDictionary(members[..|members| - 1])[last.0 := last.1]
  }

  /** Every key that occurs is bound, and nothing else. */
  lemma {:induction false} ToDictionaryKeys(members: seq<(string, Value)>)
    ensures forall k :: k in ToDictionary(members) <==> exists i :: 0 <= i < |members| && members[i].0 == k
    decreases |members|
  {
    if |members| > 0 {
      var init := members[..|members| - 1];
      ToDictionaryKeys(init);
      assert forall i :: 0 <= i < |init| ==> init[i] == members[i];
    }
  }

  /** A key that occurs more than once is bound to its last value. */
  lemma {:induction false} ToDictionaryLastWins(members: seq<(string, Value)>, i: int)
    requires 0 <= i < |members| && LastOccurrence(members, i)
    ensures members[i].0 in ToDictionary(members)
    ensures ToDictionary(members)[members[i].0] == members[i].1
    decreases |members|
  {
    var init := members[..|members| - 1];
    if i < |init| {
      assert LastOccurrence(init, i);
      ToDictionaryLastWins(init, i);
    }
  }

  /** No member after position `i` has the same key. */
  predicate LastOccurrence(members: seq<(string, Value)>, i: int)
    requires 0 <= i < |members|
  {
    forall j :: i < j < |members| ==> members[j].0 != members[i].0
  }

  /** `object?.ToString()` on a dictionary value: a JSON null is a C# null,
      so the result is absent; booleans print as .NET booleans do; numbers
      print their literal text; strings print their contents; arrays and
      objects print their JSON text. */
  function Display(v: Value): (r: Option<string>)
    ensures r.None? <==> v.Null?
    ensures v.Str? ==> r == Some(v.s)
  {
    match v
    case Null => None
    case Bool(b) => Some(if b then "True" else "False")
    case Number(raw) => Some(raw)
    case Str(s) => Some(s)
    case _ => Some(Serialize(v))
  }

  /** `input.GetValueOrDefault(key)?.ToString()`: absent for a missing key
      and for a JSON null, otherwise the value's text. */
  function Argument(input: Input, key: string): (r: Option<string>)
    ensures key !in input ==> r.None?
    ensures key in input ==> r == Display(input[key])
  {
    if key in input then Display(input[key]) else None
  }

  /** Compact JSON text of a value. */
  function Serialize(v: Value): string
  {
    match v
    case Null => "null"
    case Bool(b) => if b then "true" else "false"
    case Number(raw) => raw
    case Str(s) => Quote(s)
    case Array(items) => "[" + SerializeItems(items) + "]"
    case Object(members) => "{" + SerializeMembers(members) + "}"
  }

  function SerializeItems(items: seq<Value>): string
  {
    if |items| == 0 then ""
    else Serialize(items[0]) + (if |items| == 1 then "" else "," + SerializeItems(items[1..]))
  }

  function SerializeMembers(members: seq<(string, Value)>): string
    decreases members
  {
    if |members| == 0 then ""
    else
      var m := members[0];
      assert m in members;
      assert m.1 < m;
      Quote(m.0) + ":" + Serialize(m.1)
      + (if |members| == 1 then "" else "," + SerializeMembers(members[1..]))
  }

  /** A JSON string literal: quotes and backslashes are escaped. */
  function Quote(s: string): string {
    "\"" + EscapeQuoted(s) + "\""
  }

  function EscapeQuoted(s: string): string {
    if |s| == 0 then ""
    else (if s[0] == '"' || s[0] == '\\' then ['\\', s[0]] else [s[0]]) + EscapeQuoted(s[1..])
  }

  /** A JSON-Schema property of type "string" with its description, as
      both tools declare their parameters. */
  function StringProperty(description: string): Value {
    Object([("type", Str("string")), ("description", Str(description))])
  }

  /** The names listed by a JSON-Schema object's "required" member, or none
      when it has no such member (the first one counts). */
  function RequiredFields(schema: Value): seq<string>
  {
    if !schema.Object? then []
    else Required(schema.members)
  }

  function Required(members: seq<(string, Value)>): seq<string>
  {
    if |members| == 0 then []
    else if members[0].0 == "required" then Strings(members[0].1)
    else Required(members[1..])
  }

  function Strings(v: Value): seq<string>
  {
    if !v.Array? then []
    else seq(|v.items|, i requires 0 <= i < |v.items| => if v.items[i].Str? then v.items[i].s else "")
  }

  /** The member names of a JSON-Schema object's "properties" member. */
  function PropertyNames(schema: Value): seq<string>
  {
    if !schema.Object? then []
    else Properties(schema.members)
  }

  function Properties(members: seq<(string, Value)>): seq<string>
  {
    if |members| == 0 then []
    else if members[0].0 == "properties" && members[0].1.Object? then
      var ps := members[0].1.members;
      seq(|ps|, i requires 0 <= i < |ps| => ps[i].0)
    else Properties(members[1..])
  }
}
