/**
 * The "chat.params" hook of the tool-optimizer plugin. Before each chat
 * request it replaces the request's tool list with trimmed copies of the
 * tools and cuts every parameter description to its first line. The
 * parameter schemas are objects shared with the caller and are changed in
 * place; everything else is built afresh.
 */
module ToolOptimizer {
  import opened Values
  import opened Descriptions

  /** The JSON schema of one parameter: a host object the hook edits in place. */
  class Schema {
    var description: Option<string>
    /** Every other key of the schema (`type`, `enum`, ...). */
    var extra: map<string, Json>

    constructor (description: Option<string>, extra: map<string, Json>)
      ensures this.description == description && this.extra == extra
    {
      this.description := description;
      this.extra := extra;
    }
  }

  /**
   * A tool's `function.parameters` object: `properties` maps parameter names
   * to schemas. The hook never reassigns `properties` (it only edits the
   * schemas it holds), so the table is fixed here.
   */
  class Parameters {
    const properties: Option<map<string, Schema>>
    /** Every other key (`type`, `required`, ...). */
    var extra: map<string, Json>

    constructor (properties: Option<map<string, Schema>>, extra: map<string, Json>)
      ensures this.properties == properties && this.extra == extra
    {
      this.properties := properties;
      this.extra := extra;
    }
  }

  /** A tool's `function` record. `extra` holds every key besides the three named ones. */
  datatype Function = Function(
    name: string,
    description: Option<string>,
    parameters: Option<Parameters>,
    extra: map<string, Json>)

  /** One entry of the request's tool list; `kind` is the JSON key `type`. */
  datatype Tool = Tool(kind: string, func: Function, extra: map<string, Json>)

  /** The request options the hook may rewrite; `extra` holds every key besides `tools`. */
  class Options {
    var tools: Option<seq<Tool>>
    var extra: map<string, Json>

    constructor (tools: Option<seq<Tool>>, extra: map<string, Json>)
      ensures this.tools == tools && this.extra == extra
    {
      this.tools := tools;
      this.extra := extra;
    }
  }

  /** The hook's `output` argument. */
  class Output {
    var options: Option<Options>

    constructor (options: Option<Options>)
      ensures this.options == options
    {
      this.options := options;
    }
  }

  /**
   * `r` is the trimmed copy of `t`: it has exactly `type`, `function.name`,
   * `function.description` and `function.parameters`; type and name are
   * copied, the description follows the tool rule, and the parameters are
   * the very same object.
   */
  predicate IsTrimmedCopy(r: Tool, t: Tool) {
    && r.kind == t.kind
    && r.extra == map[]
    && r.func.name == t.func.name
    && r.func.description == ToolDescription(t.func.description)
    && r.func.parameters == t.func.parameters
    && r.func.extra == map[]
  }

  /** Trimming a trimmed copy again gives the same copy: a second run of the hook changes no tool. */
  lemma TrimmedCopyIdempotent(t: Tool, once: Tool, twice: Tool)
    requires IsTrimmedCopy(once, t) && IsTrimmedCopy(twice, once)
    ensures twice == once
  {
    ToolDescriptionIdempotent(t.func.description);
  }

  /** The schema objects reachable from a tool's `parameters.properties`. */
  ghost function SchemasOf(t: Tool): set<Schema> {
    if t.func.parameters.Some? && t.func.parameters.value.properties.Some?
    then t.func.parameters.value.properties.value.Values
    else {}
  }

  /** The parameters objects of a list of tools. */
  ghost function AllParams(ts: seq<Tool>): set<Parameters> {
    set i | 0 <= i < |ts| && ts[i].func.parameters.Some? :: ts[i].func.parameters.value
  }

  /** The schema objects reachable from the first `n` tools of a list. */
  ghost function SchemasUpTo(ts: seq<Tool>, n: nat): set<Schema>
    requires n <= |ts|
  {
    set j, s | 0 <= j < n && s in SchemasOf(ts[j]) :: s
  }

  /** The schema objects reachable from a list of tools. */
  ghost function AllSchemas(ts: seq<Tool>): set<Schema> {
    SchemasUpTo(ts, |ts|)
  }

  /** The options object of an output, if any. */
  ghost function OptionsOf(output: Output): set<Options>
    reads output
  {
    if output.options.Some? then {output.options.value} else {}
  }

  /** The tool list the hook will rewrite: empty when `options` or `options.tools` is absent. */
  ghost function ToolsOf(output: Output): seq<Tool>
    reads output, OptionsOf(output)
  {
    if output.options.Some? && output.options.value.tools.Some?
    then output.options.value.tools.value
    else []
  }

  /** The schema objects the hook may edit. */
  ghost function OutputSchemas(output: Output): set<Schema>
    reads output, OptionsOf(output)
  {
    AllSchemas(ToolsOf(output))
  }

  /**
   * The loop over `Object.entries(parameters.properties)`: each schema with
   * a non-empty description gets its first line. A schema reachable under
   * several names is visited more than once; as the rule is idempotent, it
   * still ends up with the rule applied to its original description.
   */
  method SimplifyProperties(properties: map<string, Schema>)
    modifies properties.Values`description
    ensures forall s :: s in properties.Values ==> s.description == ParamDescription(old(s.description))
    ensures forall s :: s in properties.Values ==> s.extra == old(s.extra)
  {
    var todo := properties.Keys;
    ghost var done: set<Schema> := {};
    while todo != {}
      invariant todo <= properties.Keys
      invariant done <= properties.Values
      invariant forall k :: k in properties.Keys - todo ==> properties[k] in done
      invariant forall s :: s in done ==> s.description == ParamDescription(old(s.description))
      invariant forall s :: s in properties.Values - done ==> s.description == old(s.description)
      decreases todo
    {
      var key :| key in todo;
      var schema := properties[key];
      ParamDescriptionIdempotent(old(schema.description));
      if schema.description.Some? && schema.description.value != "" {
        schema.description := Some(FirstLine(schema.description.value));
      }
      done := done + {schema};
      todo := todo - {key};
    }
    forall s | s in properties.Values
      ensures s in done
    {
      var key :| key in properties && properties[key] == s;
    }
  }

  /**
   * The callback given to `tools.map`: builds the trimmed copy of one tool
   * and, when its parameters have `properties`, cuts their descriptions in
   * place. The copy shares the parameters object with `tool`, so the edit
   * is visible through both.
   */
  method SimplifyTool(tool: Tool) returns (r: Tool)
    modifies SchemasOf(tool)`description
    ensures IsTrimmedCopy(r, tool)
    ensures forall s :: s in SchemasOf(tool) ==> s.description == ParamDescription(old(s.description))
  {
    r := Tool(tool.kind, Function(tool.func.name, ToolDescription(tool.func.description), tool.func.parameters, map[]), map[]);
    if r.func.parameters.Some? && r.func.parameters.value.properties.Some? {
      SimplifyProperties(r.func.parameters.value.properties.value);
    }
  }

  /** Adding one tool adds exactly its schemas. */
  lemma SchemasUpToStep(ts: seq<Tool>, i: nat)
    requires i < |ts|
    ensures SchemasUpTo(ts, i + 1) == SchemasUpTo(ts, i) + SchemasOf(ts[i])
    ensures SchemasOf(ts[i]) <= AllSchemas(ts)
  {
  }

  /**
   * `tools.map(...)`: the list of trimmed copies, in order, with every
   * schema reachable from the tools edited once by the parameter rule,
   * however many tools share it.
   */
  method SimplifyTools(tools: seq<Tool>) returns (simplified: seq<Tool>)
    modifies AllSchemas(tools)`description
    ensures |simplified| == |tools|
    ensures forall i :: 0 <= i < |tools| ==> IsTrimmedCopy(simplified[i], tools[i])
    ensures forall s :: s in AllSchemas(tools) ==> s.description == ParamDescription(old(s.description))
  {
    simplified := [];
    var i := 0;
    while i < |tools|
      invariant 0 <= i <= |tools|
      invariant |simplified| == i
      invariant forall j :: 0 <= j < i ==> IsTrimmedCopy(simplified[j], tools[j])
      invariant forall s :: s in AllSchemas(tools) ==>
                  s.description == if s in SchemasUpTo(tools, i) then ParamDescription(old(s.description))
                                   else old(s.description)
    {
      SchemasUpToStep(tools, i);
      forall s | s in SchemasUpTo(tools, i) {
        ParamDescriptionIdempotent(old(s.description));
      }
      var t := SimplifyTool(tools[i]);
      simplified := simplified + [t];
      i := i + 1;
    }
  }

  /**
   * The "chat.params" hook. Without `options` or `options.tools` nothing
   * changes. Otherwise `options.tools` is replaced by a list of the same
   * length whose i-th entry is the trimmed copy of the i-th tool, and every
   * schema reachable from the original tools has the parameter rule applied
   * once to its original description. The frame says what else may change:
   * nothing but `options.tools` and schema descriptions.
   */
  method OnChatParams(output: Output)
    modifies OptionsOf(output)`tools, OutputSchemas(output)`description
    ensures output.options == old(output.options)
    ensures output.options.Some? && old(output.options.value.tools).None? ==>
              output.options.value.tools.None?
    ensures output.options.Some? && old(output.options.value.tools).Some? ==>
              var before := old(output.options.value.tools.value);
              && output.options.value.tools.Some?
              && |output.options.value.tools.value| == |before|
              && forall i :: 0 <= i < |before| ==> IsTrimmedCopy(output.options.value.tools.value[i], before[i])
    ensures forall s :: s in AllSchemas(old(ToolsOf(output))) ==> s.description == ParamDescription(old(s.description))
    ensures forall s :: s in AllSchemas(old(ToolsOf(output))) ==> s.extra == old(s.extra)
    ensures forall p :: p in AllParams(old(ToolsOf(output))) ==> p.extra == old(p.extra)
  {
    if output.options.Some? && output.options.value.tools.Some? {
      var options := output.options.value;
      var simplified := SimplifyTools(options.tools.value);
      options.tools := Some(simplified);
    }
  }

  /**
   * A client of the hook: one tool whose description and whose only
   * parameter description both start with a newline. The tool keeps its
   * whole description, the parameter's becomes empty, the extra key is
   * dropped, and the edit is seen through the caller's own tool record.
   */
  method LeadingNewlineExample() {
    var path := new Schema(Some("\nThe file to read"), map["type" := JString("string")]);
    var params := new Parameters(Some(map["path" := path]), map[]);
    var read := Tool("function", Function("read", Some("\nReads a file.\nMore text"), Some(params), map["strict" := JBool(true)]), map[]);
    var options := new Options(Some([read]), map[]);
    var output := new Output(Some(options));
    assert params.properties.value["path"] == path;
    assert path in SchemasOf(read);
    SchemasUpToStep([read], 0);
    assert path in AllSchemas([read]);
    OnChatParams(output);
    var sent := options.tools.value[0];
    assert sent.func.description == Some("\nReads a file.\nMore text");
    assert sent.func.extra == map[];
    assert path.description == Some("");
    assert path.extra == map["type" := JString("string")];
    assert read.func.parameters.value.properties.value["path"].description == Some("");
  }
}
