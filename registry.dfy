/** The shape of a `TOOLS_DEFINITION` entry (name, description, JSON input
    schema) and the MCP `Tool` object `handle_list_tools` builds from it. */
module Registry {
  /** The JSON-schema types the definitions use; an array always holds strings. */
  datatype ArgType = StringArg | IntegerArg | StringArrayArg

  datatype Property = Property(name: string, argType: ArgType, description: string)

  /** An `"type": "object"` schema: its properties in order and its `required` list. */
  datatype Schema = Schema(properties: seq<Property>, required: seq<string>)

  /** One dictionary of a `TOOLS_DEFINITION` list. */
  datatype ToolDef = ToolDef(name: string, description: string, inputSchema: Schema)

  /** `mcp.types.Tool`. */
  datatype Tool = Tool(name: string, description: string, inputSchema: Schema)

  predicate Distinct(s: seq<string>) {
    forall i, j | 0 <= i < j < |s| :: s[i] != s[j]
  }

  function PropertyNames(props: seq<Property>): (names: seq<string>)
    ensures |names| == |props| && forall i | 0 <= i < |props| :: names[i] == props[i].name
  {
    if props == [] then [] else [props[0].name] + PropertyNames(props[1..])
  }

  function Names(defs: seq<ToolDef>): (names: seq<string>)
    ensures |names| == |defs| && forall i | 0 <= i < |defs| :: names[i] == defs[i].name
  {
    if defs == [] then [] else [defs[0].name] + Names(defs[1..])
  }

  function ToolNames(tools: seq<Tool>): (names: seq<string>)
    ensures |names| == |tools| && forall i | 0 <= i < |tools| :: names[i] == tools[i].name
  {
    if tools == [] then [] else [tools[0].name] + ToolNames(tools[1..])
  }

  /** Property names are distinct, and `required` lists distinct declared properties. */
  predicate WellFormedSchema(s: Schema) {
    var declared := PropertyNames(s.properties);
    Distinct(declared) && Distinct(s.required) && forall r | r in s.required :: r in declared
  }

  /** Tool names are distinct and every schema is well formed. */
  predicate WellFormedRegistry(defs: seq<ToolDef>) {
    Distinct(Names(defs)) && forall i | 0 <= i < |defs| :: WellFormedSchema(defs[i].inputSchema)
  }

  /** What a schema-validating client guarantees: every required argument is present. */
  predicate Satisfies(args: set<string>, s: Schema) {
    forall r | r in s.required :: r in args
  }

  /** The `required` list of the tool called `name`, or none when it is not listed. */
  function RequiredOf(defs: seq<ToolDef>, name: string): seq<string> {
    if defs == [] then []
    else if defs[0].name == name then defs[0].inputSchema.required
    else RequiredOf(defs[1..], name)
  }

  /** A name no definition carries requires nothing. */
  lemma {:induction false} UnlistedRequiresNothing(defs: seq<ToolDef>, name: string)
    requires name !in Names(defs)
    ensures RequiredOf(defs, name) == []
  {
    if defs != [] {
      assert Names(defs[1..]) == Names(defs)[1..];
      UnlistedRequiresNothing(defs[1..], name);
    }
  }

  /** `handle_list_tools`: one `Tool` per definition, in definition order, with
      name, description and schema copied unchanged. */
  method ListTools(defs: seq<ToolDef>) returns (tools: seq<Tool>)
    ensures |tools| == |defs|
    ensures forall i | 0 <= i < |defs| ::
      tools[i].name == defs[i].name && tools[i].description == defs[i].description
      && tools[i].inputSchema == defs[i].inputSchema
  {
    tools := [];
    for i := 0 to |defs|
      invariant |tools| == i
      invariant forall k | 0 <= k < i ::
        tools[k].name == defs[k].name && tools[k].description == defs[k].description
        && tools[k].inputSchema == defs[k].inputSchema
    {
      var tdef := defs[i];
      tools := tools + [Tool(tdef.name, tdef.description, tdef.inputSchema)];
    }
  }

  /** The listed tools carry the definitions' names, in the same order. */
  lemma ListedNames(defs: seq<ToolDef>, tools: seq<Tool>)
    requires |tools| == |defs|
    requires forall i | 0 <= i < |defs| :: tools[i].name == defs[i].name
    ensures ToolNames(tools) == Names(defs)
  {
  }
}
