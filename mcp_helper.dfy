/** The MCP client side of one worker: the schema compiler that turns each
    listed tool's `inputSchema` into a field table, and the client object that
    caches the tools it built. Spawning the worker and the wire protocol are
    oracles: `Connect` is told how the handshake went and `GetTools` is handed
    the result of `list_tools`. */
module McpHelper {
  import opened Wrappers
  import opened Messages

  /** No key occurs twice. */
  predicate DistinctKeys<V>(d: seq<(string, V)>)
  {
    forall i, j :: 0 <= i < j < |d| ==> d[i].0 != d[j].0
  }

  /** A Python dict with string keys: its items in insertion order. */
  type PyDict<V> = d: seq<(string, V)> | DistinctKeys(d) witness []

  function Keys<V>(d: seq<(string, V)>): (ks: seq<string>)
    ensures |ks| == |d|
    ensures forall i :: 0 <= i < |d| ==> ks[i] == d[i].0
  {
    seq(|d|, i requires 0 <= i < |d| => d[i].0)
  }

  /** `d[k] = v`: replaces the value of an existing key in place, else appends. */
  function Insert<V>(d: seq<(string, V)>, k: string, v: V): seq<(string, V)>
    decreases |d|
  {
    if d == [] then [(k, v)]
    else if d[0].0 == k then [(k, v)] + d[1..]
    else [d[0]] + Insert(d[1..], k, v)
  }

  /** Assigning a key the dict does not hold appends it at the end. */
  lemma {:induction false} InsertFresh<V>(d: seq<(string, V)>, k: string, v: V)
    requires k !in Keys(d)
    ensures Insert(d, k, v) == d + [(k, v)]
    decreases |d|
  {
    if d != [] {
      assert Keys(d[1..]) == Keys(d)[1..];
      InsertFresh(d[1..], k, v);
      assert [d[0]] + (d[1..] + [(k, v)]) == d + [(k, v)];
    }
  }

  // ---------------------------------------------------------------- schemas

  /** The value under `"type"` in a property definition: a string, or
      something else (for instance a list of type names). */
  datatype TypeDecl = TypeName(name: string) | NonStringType

  /** One entry of `properties`; `declaredType` is `None` when `"type"` is absent. */
  datatype FieldDef = FieldDef(declaredType: Option<TypeDecl>)

  /** A tool's `inputSchema`, with `"properties"` and `"required"` possibly absent. */
  datatype InputSchema = InputSchema(properties: Option<PyDict<FieldDef>>, required: Option<seq<string>>)

  /** One entry of the `list_tools` result. */
  datatype ToolInfo = ToolInfo(name: string, description: string, inputSchema: InputSchema)

  /** The Python annotation a field is given. */
  datatype PyType = StrType | IntType | FloatType | BoolType | ListType | DictType

  /** `...` (the field must be given) or a default of `None`. */
  datatype FieldDefault = Required | DefaultNone

  datatype Field = Field(annotation: PyType, default: FieldDefault)

  /** The arguments model `create_model` is asked for: its name and field table. */
  datatype ArgsModel = ArgsModel(modelName: string, fields: PyDict<Field>)

  /** The coroutine of a tool: `call_tool(toolName, ...)` on the session of `server`. */
  datatype Wrapper = Wrapper(server: string, toolName: string)

  /** A tool as handed to the agent. */
  datatype Tool = Tool(name: string, description: string, argsSchema: Option<ArgsModel>, coroutine: Wrapper)

  /** The JSON-schema type name a Python annotation comes from. */
  function SchemaTypeName(t: PyType): string
  {
    match t
    case StrType => "string"
    case IntType => "integer"
    case FloatType => "number"
    case BoolType => "boolean"
    case ListType => "array"
    case DictType => "object"
  }

  /** The type mapping: `field_def.get("type", "string")` through the
      if/elif chain, where anything unrecognised stays `str`. */
  function PythonType(def: FieldDef): (t: PyType)
    ensures t != StrType <==>
      def.declaredType.Some? && def.declaredType.value.TypeName? &&
      def.declaredType.value.name in ["integer", "number", "boolean", "array", "object"]
    ensures t != StrType ==> def.declaredType == Some(TypeName(SchemaTypeName(t)))
  {
    var declared := if def.declaredType.None? then TypeName("string") else def.declaredType.value;
    match declared
    case NonStringType => StrType
    case TypeName(n) =>
      if n == "integer" then IntType
      else if n == "number" then FloatType
      else if n == "boolean" then BoolType
      else if n == "array" then ListType
      else if n == "object" then DictType
      else StrType
  }

  /** Every annotation is reached from its own schema type name. */
  lemma PythonTypeOfSchemaName(t: PyType)
    ensures PythonType(FieldDef(Some(TypeName(SchemaTypeName(t))))) == t
  {
  }

  /** The field built for property `name`: required exactly when listed in `required`. */
  function CompileField(name: string, def: FieldDef, required: seq<string>): (f: Field)
    ensures f.annotation == PythonType(def)
    ensures f.default == Required <==> name in required
  {
    Field(PythonType(def), if name in required then Required else DefaultNone)
  }

  /** The field table built from `properties`: one field per property, same order. */
  function CompileFields(props: PyDict<FieldDef>, required: seq<string>): (fields: PyDict<Field>)
    ensures Keys(fields) == Keys(props)
    ensures forall i :: 0 <= i < |props| ==>
      fields[i].1 == CompileField(props[i].0, props[i].1, required)
  {
    var fs := seq(|props|, i requires 0 <= i < |props| => (props[i].0, CompileField(props[i].0, props[i].1, required)));
    assert DistinctKeys(fs) by {
      forall i, j | 0 <= i < j < |fs| ensures fs[i].0 != fs[j].0 {
        assert fs[i].0 == props[i].0 && fs[j].0 == props[j].0;
      }
    }
    fs
  }

  /** The `properties` of a schema, `{}` when absent. */
  function PropertiesOf(s: InputSchema): PyDict<FieldDef>
  {
    if s.properties.Some? then s.properties.value else []
  }

  /** The `required` list of a schema, `[]` when absent. */
  function RequiredOf(s: InputSchema): seq<string>
  {
    if s.required.Some? then s.required.value else []
  }

  /** The tool built for one listed tool of `server`. */
  function CompileTool(server: string, info: ToolInfo): (t: Tool)
    ensures t.name == info.name && t.description == info.description
    ensures t.coroutine == Wrapper(server, info.name)
    ensures t.argsSchema.None? <==> PropertiesOf(info.inputSchema) == []
    ensures t.argsSchema.Some? ==>
      t.argsSchema.value.modelName == info.name + "Args" &&
      t.argsSchema.value.fields == CompileFields(PropertiesOf(info.inputSchema), RequiredOf(info.inputSchema))
  {
    var fields := CompileFields(PropertiesOf(info.inputSchema), RequiredOf(info.inputSchema));
    var argsModel := if fields != [] then Some(ArgsModel(info.name + "Args", fields)) else None;
    Tool(info.name, info.description, argsModel, Wrapper(server, info.name))
  }

  /** The tools built for a whole listing, one per listed tool, in order. */
  function CompileTools(server: string, infos: seq<ToolInfo>): (ts: seq<Tool>)
    ensures |ts| == |infos|
    ensures forall i :: 0 <= i < |infos| ==> ts[i] == CompileTool(server, infos[i])
  {
    seq(|infos|, i requires 0 <= i < |infos| => CompileTool(server, infos[i]))
  }

  /** A field of the compiled table for each property, and nothing for names
      that are only in `required`: a name has a field iff it is a property,
      and that field is required iff the name is listed in `required`. */
  lemma FieldTable(s: InputSchema, name: string)
    ensures var fields := CompileFields(PropertiesOf(s), RequiredOf(s));
      (name in Keys(fields) <==> name in Keys(PropertiesOf(s))) &&
      forall i :: 0 <= i < |fields| && fields[i].0 == name ==>
        (fields[i].1.default == Required <==> s.required.Some? && name in s.required.value)
  {
  }

  /** The text of the `RuntimeError` raised when there is no session. */
  const NotConnected: string := "Client not connected"

  /** How starting a worker went: the spawn failed, the process started but
      the handshake failed (the session is already set by then), or both succeeded. */
  datatype ConnectOutcome = SpawnFailed(error: string) | HandshakeFailed(error: string) | Connected

  class MCPClient {
    const serverScriptPath: string
    /** Whether `self.session` is set. */
    var sessionOpen: bool
    var toolsCache: seq<Tool>

    constructor (serverScriptPath: string)
      ensures this.serverScriptPath == serverScriptPath
      ensures !sessionOpen && toolsCache == []
    {
      this.serverScriptPath := serverScriptPath;
      sessionOpen := false;
      toolsCache := [];
    }

    /** Starts the worker; `outcome` stands for the subprocess launch and the
        `initialize` handshake. */
    method Connect(outcome: ConnectOutcome) returns (r: Result<(), string>)
      modifies this`sessionOpen
      ensures r.Ok? <==> outcome.Connected?
      ensures sessionOpen == (old(sessionOpen) || !outcome.SpawnFailed?)
    {
      match outcome
      case SpawnFailed(e) =>
        r := Err(e);
      case HandshakeFailed(e) =>
        sessionOpen := true;
        r := Err(e);
      case Connected =>
        sessionOpen := true;
        r := Ok(());
    }

    /** The field table of one schema, built by walking `properties.items()`. */
    static method BuildFields(props: PyDict<FieldDef>, required: seq<string>) returns (fields: seq<(string, Field)>)
      ensures fields == CompileFields(props, required)
    {
      fields := [];
      var i := 0;
      while i < |props|
        invariant 0 <= i <= |props|
        invariant fields == CompileFields(props[..i], required)
      {
        var (name, def) := props[i];
        assert Keys(fields) == Keys(props[..i]);
        assert name !in Keys(fields) by {
          forall k | 0 <= k < i ensures Keys(fields)[k] != name {
            assert props[k].0 != props[i].0;
          }
        }
        InsertFresh(fields, name, CompileField(name, def, required));
        fields := Insert(fields, name, CompileField(name, def, required));
        assert props[..i + 1] == props[..i] + [props[i]];
        i := i + 1;
      }
      assert props[..i] == props;
    }

    /** `get_tools`: compiles every listed tool into a tool bound to its own
        name on this client's worker, and caches the result. `listing` is what
        `list_tools` answered (or the text of what it raised). */
    method GetTools(listing: Result<seq<ToolInfo>, string>) returns (r: Result<seq<Tool>, string>)
      modifies this`toolsCache
      ensures !sessionOpen ==> r == Err(NotConnected) && toolsCache == old(toolsCache)
      ensures sessionOpen && listing.Err? ==> r == Err(listing.error) && toolsCache == old(toolsCache)
      ensures sessionOpen && listing.Ok? ==>
        r == Ok(CompileTools(serverScriptPath, listing.value)) && toolsCache == r.value
    {
      if !sessionOpen {
        return Err(NotConnected);
      }
      if listing.Err? {
        return Err(listing.error);
      }
      var infos := listing.value;
      var tools: seq<Tool> := [];
      var i := 0;
      while i < |infos|
        invariant 0 <= i <= |infos|
        invariant |tools| == i
        invariant forall k :: 0 <= k < i ==> tools[k] == CompileTool(serverScriptPath, infos[k])
      {
        var info := infos[i];
        var props := PropertiesOf(info.inputSchema);
        var fields := BuildFields(props, RequiredOf(info.inputSchema));
        var argsModel := if fields != [] then Some(ArgsModel(info.name + "Args", fields)) else None;
        tools := tools + [Tool(info.name, info.description, argsModel, Wrapper(serverScriptPath, info.name))];
        i := i + 1;
      }
      assert tools == CompileTools(serverScriptPath, infos);
      toolsCache := tools;
      r := Ok(tools);
    }
  }
}
