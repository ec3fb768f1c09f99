/** The tool registry and dispatcher (`ToolExecutor`): a map from tool name
    to tool, filled by registration, that lists its tools' definitions and
    runs a tool by name. */
module ToolExecutor {
  import opened Basics
  import Json

  /** A tool (`ITool`). `run` is `ExecuteAsync`: it yields the tool's string
      result, or fails with the message of the exception it throws. */
  datatype Tool = Tool(
    name: string,
    description: string,
    inputSchema: Json.Value,
    run: Json.Input -> Result<string, string>)

  /** What the registry publishes about a tool (`ToolDefinition`). */
  datatype ToolDefinition = ToolDefinition(name: string, description: string, inputSchema: Json.Value)

  function Definition(t: Tool): ToolDefinition {
    ToolDefinition(t.name, t.description, t.inputSchema)
  }

  /** The registry. `order` lists the registered names in the order they
      were first registered, which is the enumeration order of a .NET
      `Dictionary` that is only ever added to. */
  datatype Registry = Registry(tools: map<string, Tool>, order: seq<string>)

  /** Every registered name occurs once in `order`, and every tool is bound
      under its own name. */
  ghost predicate Valid(r: Registry) {
    && (forall i :: 0 <= i < |r.order| ==> r.order[i] in r.tools)
    && (forall n :: n in r.tools ==> n in r.order)
    && (forall i, j :: 0 <= i < j < |r.order| ==> r.order[i] != r.order[j])
    && (forall n :: n in r.tools ==> r.tools[n].name == n)
  }

  /** `new ToolExecutor()`. */
  function Empty(): (r: Registry)
    ensures Valid(r)
    ensures forall n :: !HasTool(r, n)
  {
    Registry(map[], [])
  }

  /** `HasTool`. */
  predicate HasTool(r: Registry, name: string) {
    name in r.tools
  }

  /** The tool bound to a name, if any. */
  function Lookup(r: Registry, name: string): (t: Option<Tool>)
    ensures t.Some? <==> HasTool(r, name)
  {
    if name in r.tools then Some(r.tools[name]) else None
  }

  /** `RegisterTool`: the tool is bound under its own name, replacing any
      tool registered earlier under that name; no other name's binding
      changes. A new name is enumerated last; a replaced one keeps its
      place. */
  function RegisterTool(r: Registry, t: Tool): (r': Registry)
    requires Valid(r)
    ensures Valid(r')
    ensures HasTool(r', t.name) && Lookup(r', t.name) == Some(t)
    ensures forall n :: n != t.name ==> Lookup(r', n) == Lookup(r, n)
    ensures HasTool(r, t.name) ==> r'.order == r.order
    ensures !HasTool(r, t.name) ==> r'.order == r.order + [t.name]
  {
    Registry(r.tools[t.name := t], if t.name in r.tools then r.order else r.order + [t.name])
  }

  /** `GetToolDefinitions`: one definition per registered tool, in
      enumeration order, each carrying that tool's name, description and
      schema; every registered name occurs exactly once. */
  function GetToolDefinitions(r: Registry): (defs: seq<ToolDefinition>)
    requires Valid(r)
    ensures |defs| == |r.order|
    ensures forall i :: 0 <= i < |defs| ==> defs[i] == Definition(r.tools[r.order[i]])
    ensures forall n :: HasTool(r, n) <==> exists i :: 0 <= i < |defs| && defs[i].name == n
    ensures forall i, j :: 0 <= i < j < |defs| ==> defs[i].name != defs[j].name
  {
    seq(|r.order|, i requires 0 <= i < |r.order| => Definition(r.tools[r.order[i]]))
  }

  /** The `InvalidOperationException` message for an unknown tool. */
  function NotFound(name: string): string {
    "Tool '" + name + "' not found"
  }

  /** `ExecuteToolAsync`: an unregistered name fails with "Tool '<name>' not
      found" and runs nothing; a registered name runs that tool on the input
      as given and returns its result, or its failure, unchanged. */
  function ExecuteTool(r: Registry, name: string, input: Json.Input): (out: Result<string, string>)
    ensures !HasTool(r, name) ==> out == Failure(NotFound(name))
    ensures HasTool(r, name) ==> out == r.tools[name].run(input)
  {
    match Lookup(r, name)
    case None => Failure(NotFound(name))
    case Some(tool) => tool.run(input)
  }

  /** A registry filled by registering `ts` one after the other. */
  function Build(ts: seq<Tool>): (r: Registry)
    ensures Valid(r)
    decreases |ts|
  {
    if |ts| == 0 then Empty()
    else RegisterTool(Build(ts[..|ts| - 1]), ts[|ts| - 1])
  }

  /** Some registration in `ts` used `name`. */
  predicate Registered(ts: seq<Tool>, name: string) {
    exists i :: 0 <= i < |ts| && ts[i].name == name
  }

  lemma RegisteredSnoc(ts: seq<Tool>, name: string)
    requires |ts| > 0
    ensures Registered(ts, name) <==> Registered(ts[..|ts| - 1], name) || ts[|ts| - 1].name == name
  {
    var init := ts[..|ts| - 1];
    if Registered(ts, name) && ts[|ts| - 1].name != name {
      var i :| 0 <= i < |ts| && ts[i].name == name;
      assert init[i] == ts[i];
    }
    if Registered(init, name) {
      var i :| 0 <= i < |init| && init[i].name == name;
      assert ts[i] == init[i];
    }
  }

  lemma RegisterKnows(r: Registry, t: Tool, name: string)
    requires Valid(r)
    ensures HasTool(RegisterTool(r, t), name) <==> name == t.name || HasTool(r, name)
  {
  }

  /** After a sequence of registrations, a name is known exactly when some
      registration used it: a name never registered is unknown. */
  lemma {:induction false} BuildKnowsRegisteredNames(ts: seq<Tool>, name: string)
    ensures HasTool(Build(ts), name) <==> Registered(ts, name)
    decreases |ts|
  {
    if |ts| > 0 {
      var init := ts[..|ts| - 1];
      var t := ts[|ts| - 1];
      assert Build(ts) == RegisterTool(Build(init), t);
      RegisterKnows(Build(init), t, name);
      BuildKnowsRegisteredNames(init, name);
      RegisteredSnoc(ts, name);
    }
  }

  lemma RegisterBinds(r: Registry, t: Tool, name: string)
    requires Valid(r)
    ensures Lookup(RegisterTool(r, t), name) == if name == t.name then Some(t) else Lookup(r, name)
  {
  }

  /** The last tool in `ts` named `name`, found by scanning backwards. */
  function LastNamed(ts: seq<Tool>, name: string): (t: Option<Tool>)
    ensures t.Some? ==> t.value.name == name
    decreases |ts|
  {
    if |ts| == 0 then None
    else if ts[|ts| - 1].name == name then Some(ts[|ts| - 1])
    else LastNamed(ts[..|ts| - 1], name)
  }

  /** After a sequence of registrations, a name is bound to the LAST tool
      registered under it: re-registering replaces. */
  lemma {:induction false} BuildBindsLastRegistration(ts: seq<Tool>, name: string)
    ensures Lookup(Build(ts), name) == LastNamed(ts, name)
    decreases |ts|
  {
    if |ts| > 0 {
      var init := ts[..|ts| - 1];
      var t := ts[|ts| - 1];
      assert Build(ts) == RegisterTool(Build(init), t);
      RegisterBinds(Build(init), t, name);
      BuildBindsLastRegistration(init, name);
    }
  }

  /** The definitions of a registry built by registration list each
      registered name once, in the order of its first registration. */
  lemma {:induction false} BuildEnumeratesFirstRegistrations(ts: seq<Tool>)
    ensures Build(ts).order == FirstOccurrences(ts)
    decreases |ts|
  {
    if |ts| > 0 {
      var init := ts[..|ts| - 1];
      var t := ts[|ts| - 1];
      assert Build(ts) == RegisterTool(Build(init), t);
      BuildEnumeratesFirstRegistrations(init);
      BuildKnowsRegisteredNames(init, t.name);
    }
  }

  /** The names of `ts`, each kept at its first occurrence. */
  function FirstOccurrences(ts: seq<Tool>): seq<string>
    decreases |ts|
  {
    if |ts| == 0 then []
    else
      var init := ts[..|ts| - 1];
      var name := ts[|ts| - 1].name;
      if Registered(init, name) then FirstOccurrences(init)
      else FirstOccurrences(init) + [name]
  }
}
