/** tools/base.py: the result shape every agent tool returns, the JSON-schema
    rendering of tool parameters and definitions, the type-hint mapping, the
    docstring parameter lookup, the decorator's result wrapping and the
    per-class tool registry. */
module ToolBase {
  import opened Common

  datatype ToolStatus = Success | Error | Pending

  function StatusValue(s: ToolStatus): string
  {
    match s
    case Success => "success"
    case Error => "error"
    case Pending => "pending"
  }

  /** `ToolResult`: `data` is JNull when the source's `data` is None, and
      `error` is None when no error message was set. */
  datatype ToolResult = ToolResult(status: ToolStatus, data: Json, error: Option<string>, metadata: map<string, Json>)
  {
    predicate IsSuccess() { status == Success }
    predicate IsError() { status == Error }
  }

  /** `ToolResult.success(data, **metadata)` */
  function SuccessResult(data: Json, metadata: map<string, Json>): (r: ToolResult)
    ensures r.IsSuccess() && !r.IsError()
    ensures r.data == data && r.error == None && r.metadata == metadata
  {
    ToolResult(Success, data, None, metadata)
  }

  /** `ToolResult.failure(error, **metadata)` */
  function FailureResult(error: string, metadata: map<string, Json>): (r: ToolResult)
    ensures r.IsError() && !r.IsSuccess()
    ensures r.data == JNull && r.error == Some(error) && r.metadata == metadata
  {
    ToolResult(Error, JNull, Some(error), metadata)
  }

  /** A status is never both success and error. */
  lemma StatusExclusive(r: ToolResult)
    ensures !(r.IsSuccess() && r.IsError())
  {
  }

  predicate ErrorIsSet(r: ToolResult) { r.error.Some? && r.error.value != "" }

  /** `ToolResult.to_dict` */
  function ToDict(r: ToolResult): (d: map<string, Json>)
    ensures "status" in d && d["status"] == JStr(StatusValue(r.status))
    ensures "data" in d <==> r.data != JNull
    ensures "data" in d ==> d["data"] == r.data
    ensures "error" in d <==> ErrorIsSet(r)
    ensures "error" in d ==> d["error"] == JStr(r.error.value)
    ensures "metadata" in d <==> |r.metadata| > 0
    ensures "metadata" in d ==> d["metadata"] == JObj(r.metadata)
    ensures d.Keys <= {"status", "data", "error", "metadata"}
  {
    var d0 := map["status" := JStr(StatusValue(r.status))];
    var d1 := if r.data != JNull then d0["data" := r.data] else d0;
    var d2 := if ErrorIsSet(r) then d1["error" := JStr(r.error.value)] else d1;
    if |r.metadata| > 0 then d2["metadata" := JObj(r.metadata)] else d2
  }

  // -----------------------------------------------------------------------
  // Parameters and definitions
  // -----------------------------------------------------------------------

  /** `ToolParameter`: `default` is JNull for None; an absent enum and an
      empty one are both falsy and written as []. */
  datatype ToolParameter = ToolParameter(name: string, paramType: string, description: string,
                                         required: bool, default: Json, enumValues: seq<Json>)

  /** `ToolParameter.to_schema` */
  function ToSchema(p: ToolParameter): (s: map<string, Json>)
    ensures "type" in s && "description" in s
    ensures s["type"] == JStr(p.paramType) && s["description"] == JStr(p.description)
    ensures "enum" in s <==> p.enumValues != []
    ensures "enum" in s ==> s["enum"] == JList(p.enumValues)
    ensures "default" in s <==> p.default != JNull
    ensures "default" in s ==> s["default"] == p.default
    ensures s.Keys <= {"type", "description", "enum", "default"}
  {
    var s0 := map["type" := JStr(p.paramType), "description" := JStr(p.description)];
    var s1 := if p.enumValues != [] then s0["enum" := JList(p.enumValues)] else s0;
    if p.default != JNull then s1["default" := p.default] else s1
  }

  datatype ToolDefinition = ToolDefinition(name: string, description: string, parameters: seq<ToolParameter>, returnsDoc: string)

  /** The function-calling schema of a definition, kept as its parts. */
  datatype FunctionSchema = FunctionSchema(name: string, description: string,
                                           properties: map<string, map<string, Json>>, required: seq<string>)

  /** Names of the required parameters, in parameter order. */
  function RequiredNames(ps: seq<ToolParameter>): (r: seq<string>)
    ensures |r| <= |ps|
    ensures forall n :: n in r <==> exists i :: 0 <= i < |ps| && ps[i].required && ps[i].name == n
  {
    if ps == [] then []
    else RequiredNames(ps[..|ps| - 1]) + (if ps[|ps| - 1].required then [ps[|ps| - 1].name] else [])
  }

  /** The properties dict as `to_function_schema` fills it: one entry per
      parameter name, a later parameter overwriting an earlier one. */
  function PropertiesOf(ps: seq<ToolParameter>): map<string, map<string, Json>>
  {
    if ps == [] then map[]
    else PropertiesOf(ps[..|ps| - 1])[ps[|ps| - 1].name := ToSchema(ps[|ps| - 1])]
  }

  /** The last parameter of `ps` named `n`. */
  predicate IsLastNamed(ps: seq<ToolParameter>, i: nat, n: string)
  {
    i < |ps| && ps[i].name == n && forall j :: i < j < |ps| ==> ps[j].name != n
  }

  /** Every parameter name is a key, and only those. */
  lemma {:induction false} PropertiesOfKeys(ps: seq<ToolParameter>)
    ensures forall n :: n in PropertiesOf(ps) <==> exists i :: 0 <= i < |ps| && ps[i].name == n
  {
    if ps != [] {
      var init := ps[..|ps| - 1];
      PropertiesOfKeys(init);
      forall n ensures n in PropertiesOf(ps) <==> exists i :: 0 <= i < |ps| && ps[i].name == n
      {
        if n in PropertiesOf(ps) && n != ps[|ps| - 1].name {
          assert n in PropertiesOf(init);
          var i :| 0 <= i < |init| && init[i].name == n;
          assert ps[i].name == n;
        }
        if n !in PropertiesOf(ps) {
          assert n !in PropertiesOf(init) && n != ps[|ps| - 1].name;
          forall i | 0 <= i < |ps| ensures ps[i].name != n {
            if i < |init| { assert init[i] == ps[i]; }
          }
        }
      }
    }
  }

  /** Each key's schema is that of the last parameter with the name. */
  lemma {:induction false} PropertiesOfLastWins(ps: seq<ToolParameter>, i: nat)
    requires i < |ps| && IsLastNamed(ps, i, ps[i].name)
    ensures ps[i].name in PropertiesOf(ps) && PropertiesOf(ps)[ps[i].name] == ToSchema(ps[i])
  {
    var init := ps[..|ps| - 1];
    if i < |init| {
      assert init[i] == ps[i];
      assert IsLastNamed(init, i, init[i].name);
      PropertiesOfLastWins(init, i);
    }
  }

  /** `ToolDefinition.to_function_schema` */
  method ToFunctionSchema(def: ToolDefinition) returns (fs: FunctionSchema)
    ensures fs.name == def.name && fs.description == def.description
    ensures fs.required == RequiredNames(def.parameters)
    ensures fs.properties == PropertiesOf(def.parameters)
  {
    var ps := def.parameters;
    var properties: map<string, map<string, Json>> := map[];
    var required: seq<string> := [];
    var k := 0;
    while k < |ps|
      invariant 0 <= k <= |ps|
      invariant required == RequiredNames(ps[..k])
      invariant properties == PropertiesOf(ps[..k])
    {
      var param := ps[k];
      properties := properties[param.name := ToSchema(param)];
      if param.required {
        required := required + [param.name];
      }
      assert ps[..k + 1][..k] == ps[..k];
      k := k + 1;
    }
    assert ps[..k] == ps;
    fs := FunctionSchema(def.name, def.description, properties, required);
  }

  // -----------------------------------------------------------------------
  // Type hints
  // -----------------------------------------------------------------------

  /** The type-hint shapes `_python_type_to_json_type` distinguishes. */
  datatype PyType =
    | PyStr | PyInt | PyFloat | PyBool | PyList | PyDict
    | NoneType
    | UnionOf(args: seq<PyType>)    // Optional[X] is UnionOf([X, NoneType])
    | ListOf(elem: PyType)          // List[X], list[X]
    | DictOf(k: PyType, v: PyType)  // Dict[K, V], dict[K, V]
    | OtherType(name: string)

  function NonNoneArgs(args: seq<PyType>): (r: seq<PyType>)
    ensures forall t :: t in r <==> t in args && t != NoneType
    ensures forall t :: t in r ==> t < UnionOf(args)
  {
    if args == [] then []
    else (if args[0] != NoneType then [args[0]] else []) + NonNoneArgs(args[1..])
  }

  /** `_python_type_to_json_type` */
  function JsonTypeOf(t: PyType): string
  {
    match t
    case PyStr => "string"
    case PyInt => "integer"
    case PyFloat => "number"
    case PyBool => "boolean"
    case PyList => "array"
    case PyDict => "object"
    case UnionOf(args) =>
      var nn := NonNoneArgs(args);
      if nn != [] then assert nn[0] in nn; JsonTypeOf(nn[0]) else "string"
    case ListOf(_) => "array"
    case DictOf(_, _) => "object"
    case NoneType => "string"
    case OtherType(_) => "string"
  }

  /** Optional[X] maps like X, generics map to array/object, and anything
      unknown maps to "string"; the result is always one of six JSON types. */
  lemma JsonTypeOfSpec(t: PyType)
    ensures t != NoneType ==> JsonTypeOf(UnionOf([t, NoneType])) == JsonTypeOf(t)
    ensures t != NoneType ==> JsonTypeOf(UnionOf([NoneType, t])) == JsonTypeOf(t)
    ensures JsonTypeOf(ListOf(t)) == "array" && JsonTypeOf(DictOf(t, t)) == "object"
    ensures JsonTypeOf(t) in {"string", "integer", "number", "boolean", "array", "object"}
  {
    JsonTypeOfInRange(t);
    if t != NoneType {
      assert [t, NoneType][1..] == [NoneType] && [NoneType, t][1..] == [t];
      assert NonNoneArgs([NoneType]) == [] && NonNoneArgs([t]) == [t];
      assert NonNoneArgs([t, NoneType]) == [t];
      assert NonNoneArgs([NoneType, t]) == [t];
    }
  }

  lemma {:induction false} JsonTypeOfInRange(t: PyType)
    ensures JsonTypeOf(t) in {"string", "integer", "number", "boolean", "array", "object"}
    decreases t
  {
    if t.UnionOf? {
      var nn := NonNoneArgs(t.args);
      if nn != [] {
        assert nn[0] in nn;
        JsonTypeOfInRange(nn[0]);
      }
    }
  }

  // -----------------------------------------------------------------------
  // Docstring parameter lookup
  // -----------------------------------------------------------------------

  /** A stripped docstring line that documents `name` in the `name:` or
      `name -` form. */
  predicate IsNamedLine(line: string, name: string)
  {
    StartsWith(line, name + ":") || StartsWith(line, name + " -")
  }

  /** A stripped docstring line that documents `name` in the `:param name:` form. */
  predicate IsParamLine(line: string, name: string)
  {
    Contains(line, ":param " + name + ":")
  }

  predicate DocumentsParam(line: string, name: string)
  {
    IsNamedLine(Strip(line), name) || IsParamLine(Strip(line), name)
  }

  /** The description a matching line yields. */
  function DescriptionFromLine(line: string, name: string): string
  {
    var l := Strip(line);
    if IsNamedLine(l, name) then Strip(AfterFirstChar(AfterFirstChar(l, ':'), '-'))
    else Strip(AfterLast(l, ":param " + name + ":"))
  }

  /** Whether a line documents the parameter `name`. */
  function Documents(name: string): string -> bool
  {
    (line: string) => DocumentsParam(line, name)
  }

  /** The search over the docstring's lines. */
  function FirstDocumentedLine(lines: seq<string>, name: string): (r: Option<nat>)
    ensures r.Some? ==> r.value < |lines|
  {
    FirstWhere(lines, Documents(name))
  }

  /** The line found is the first that documents the parameter; none is
      found only when no line does. */
  lemma FirstDocumentedLineSpec(lines: seq<string>, name: string)
    ensures FirstDocumentedLine(lines, name).Some? ==> DocumentsParam(lines[FirstDocumentedLine(lines, name).value], name)
    ensures FirstDocumentedLine(lines, name).Some? ==>
      forall i :: 0 <= i < FirstDocumentedLine(lines, name).value ==> !DocumentsParam(lines[i], name)
    ensures FirstDocumentedLine(lines, name).None? ==> forall i :: 0 <= i < |lines| ==> !DocumentsParam(lines[i], name)
  {
    FirstWhereSpec(lines, Documents(name));
  }

  /** `_extract_param_description`: None without a docstring; otherwise the
      description taken from the first line that documents the parameter,
      or None when no line does. */
  function ExtractParamDescription(docstring: Option<string>, name: string): (r: Option<string>)
    ensures (docstring.None? || docstring.value == "") ==> r.None?
    ensures docstring.Some? && docstring.value != "" ==>
      match FirstDocumentedLine(Split(docstring.value, '\n'), name)
      case None => r.None?
      case Some(i) => r == Some(DescriptionFromLine(Split(docstring.value, '\n')[i], name))
  {
    if docstring.None? || docstring.value == "" then None
    else
      var lines := Split(docstring.value, '\n');
      match FirstDocumentedLine(lines, name)
      case None => None
      case Some(i) => Some(DescriptionFromLine(lines[i], name))
  }

  // -----------------------------------------------------------------------
  // The decorator's definition
  // -----------------------------------------------------------------------

  /** One parameter of the decorated function's signature: its type hint, if
      annotated, and its default value, if it has one. */
  datatype SigParam = SigParam(name: string, hint: Option<PyType>, default: Option<Json>)

  /** The description of one parameter: an explicit override when one is
      given for it, else what the docstring says; either one, if empty, gives
      way to a generic phrase. */
  function ParamDescription(overrides: map<string, string>, doc: Option<string>, name: string): (r: string)
    ensures name in overrides && overrides[name] != "" ==> r == overrides[name]
    ensures name in overrides && overrides[name] == "" ==> r == "The " + name + " parameter"
    ensures name !in overrides ==>
              (ExtractParamDescription(doc, name).Some? && ExtractParamDescription(doc, name).value != "" ==>
                 r == ExtractParamDescription(doc, name).value)
    ensures r != ""
  {
    var found := if name in overrides then Some(overrides[name]) else ExtractParamDescription(doc, name);
    if found.Some? && found.value != "" then found.value else "The " + name + " parameter"
  }

  /** The parameter list `tool` builds: `self` and `cls` skipped, a missing
      hint read as `str`, a parameter without a default required. */
  function ToolParams(sig: seq<SigParam>, overrides: map<string, string>, doc: Option<string>): (r: seq<ToolParameter>)
    ensures |r| <= |sig|
    ensures forall p :: p in r ==> exists q :: q in sig && q.name == p.name && q.name != "self" && q.name != "cls"
                                      && p.required == q.default.None?
    ensures forall q :: q in sig && q.name != "self" && q.name != "cls" ==> exists p :: p in r && p.name == q.name
  {
    if sig == [] then []
    else
      var q := sig[0];
      var rest := ToolParams(sig[1..], overrides, doc);
      if q.name == "self" || q.name == "cls" then rest
      else
        var t := if q.hint.Some? then JsonTypeOf(q.hint.value) else "string";
        [ToolParameter(q.name, t, ParamDescription(overrides, doc, q.name), q.default.None?,
                       if q.default.Some? then q.default.value else JNull, [])] + rest
  }

  /** `tool(name, description, returns, parameters)` applied to a function:
      the name and description fall back to the function's name and the first
      line of its docstring. */
  function BuildToolDefinition(nameOverride: string, descOverride: string, returnsDoc: string,
                               overrides: map<string, string>, funcName: string, doc: Option<string>,
                               sig: seq<SigParam>): (d: ToolDefinition)
    ensures d.name == if nameOverride != "" then nameOverride else funcName
    ensures descOverride != "" ==> d.description == descOverride
    ensures descOverride == "" ==> d.description == Strip(Split(if doc.Some? then doc.value else "", '\n')[0])
    ensures d.parameters == ToolParams(sig, overrides, doc) && d.returnsDoc == returnsDoc
  {
    var desc := if descOverride != "" then descOverride
                else Strip(Split(if doc.Some? then doc.value else "", '\n')[0]);
    ToolDefinition(if nameOverride != "" then nameOverride else funcName, desc, ToolParams(sig, overrides, doc), returnsDoc)
  }

  // -----------------------------------------------------------------------
  // The decorator's wrapper
  // -----------------------------------------------------------------------

  /** What a decorated tool function did when called. */
  datatype CallOutcome = ReturnedTool(result: ToolResult) | Returned(value: Json) | Raised(message: string)

  /** `tool(...)`'s wrapper: a ToolResult passes through, any other return is
      wrapped as success, and an exception becomes a failure with its text. */
  function WrapToolCall(o: CallOutcome): (r: ToolResult)
    ensures o.ReturnedTool? ==> r == o.result
    ensures o.Returned? ==> r.IsSuccess() && r.data == o.value && r.metadata == map[]
    ensures o.Raised? ==> r.IsError() && r.error == Some(o.message)
  {
    match o
    case ReturnedTool(t) => t
    case Returned(v) => SuccessResult(v, map[])
    case Raised(m) => FailureResult(m, map[])
  }

  // -----------------------------------------------------------------------
  // The registry
  // -----------------------------------------------------------------------

  /** What `BaseTool.execute` hands back: the raw return of the tool's
      function (the definition holds the undecorated function), or a failure. */
  datatype ExecResult = ToolReturn(result: ToolResult) | RawReturn(value: Json)

  /** One attribute of a tool class as `dir()` lists it: its name and the
      definition the `tool` decorator attached, if any. */
  datatype Attribute = Attribute(name: string, def: Option<ToolDefinition>)

  predicate IsToolAttribute(a: Attribute) { !StartsWith(a.name, "_") && a.def.Some? }

  /** `dir()` lists each name once. */
  predicate DistinctNames(attrs: seq<Attribute>)
  {
    forall i, j :: 0 <= i < j < |attrs| ==> attrs[i].name != attrs[j].name
  }

  /** The names `_register_tools` registers, in `dir()` order. */
  function RegisteredNames(attrs: seq<Attribute>): seq<string>
  {
    if attrs == [] then []
    else RegisteredNames(attrs[..|attrs| - 1]) + (if IsToolAttribute(attrs[|attrs| - 1]) then [attrs[|attrs| - 1].name] else [])
  }

  /** The `_tools` dict `_register_tools` builds. */
  function RegistryOf(attrs: seq<Attribute>): map<string, ToolDefinition>
  {
    if attrs == [] then map[]
    else
      var a := attrs[|attrs| - 1];
      if IsToolAttribute(a) then RegistryOf(attrs[..|attrs| - 1])[a.name := a.def.value]
      else RegistryOf(attrs[..|attrs| - 1])
  }

  /** Exactly the public attributes that carry a definition are registered,
      each under its own name with its own definition, and the registration
      order lists each of them once. */
  lemma {:induction false} RegistryOfSpec(attrs: seq<Attribute>)
    requires DistinctNames(attrs)
    ensures forall n :: n in RegistryOf(attrs) <==>
              exists i :: 0 <= i < |attrs| && attrs[i].name == n && IsToolAttribute(attrs[i])
    ensures forall i :: 0 <= i < |attrs| && IsToolAttribute(attrs[i]) ==>
              attrs[i].name in RegistryOf(attrs) && RegistryOf(attrs)[attrs[i].name] == attrs[i].def.value
    ensures NoDup(RegisteredNames(attrs))
    ensures forall n :: n in RegisteredNames(attrs) <==> n in RegistryOf(attrs)
  {
    if attrs != [] {
      var init := attrs[..|attrs| - 1];
      var a := attrs[|attrs| - 1];
      assert DistinctNames(init);
      RegistryOfSpec(init);
      assert forall i :: 0 <= i < |init| ==> init[i] == attrs[i];
      forall n | n in RegistryOf(attrs)
        ensures exists i :: 0 <= i < |attrs| && attrs[i].name == n && IsToolAttribute(attrs[i])
      {
        if !(IsToolAttribute(a) && n == a.name) {
          assert n in RegistryOf(init);
          var i :| 0 <= i < |init| && init[i].name == n && IsToolAttribute(init[i]);
          assert attrs[i] == init[i];
        }
      }
      forall i | 0 <= i < |attrs| && IsToolAttribute(attrs[i])
        ensures attrs[i].name in RegistryOf(attrs) && RegistryOf(attrs)[attrs[i].name] == attrs[i].def.value
      {
        if i < |init| {
          assert attrs[i].name != a.name;
          assert init[i] == attrs[i];
        }
      }
      if IsToolAttribute(a) {
        var rn := RegisteredNames(init);
        forall n | n in rn ensures n != a.name {
          assert n in RegistryOf(init);
          var i :| 0 <= i < |init| && init[i].name == n && IsToolAttribute(init[i]);
          assert attrs[i] == init[i];
        }
        assert RegisteredNames(attrs) == rn + [a.name];
        forall i | 0 <= i < |rn| ensures rn[i] != a.name { assert rn[i] in rn; }
        assert NoDup(rn + [a.name]);
      }
    }
  }

  /** `fs` is the function schema of `def`: its name and description, the
      properties of its parameters and the names of the required ones. */
  predicate SchemaOf(fs: FunctionSchema, def: ToolDefinition)
  {
    fs.name == def.name && fs.description == def.description
    && fs.properties == PropertiesOf(def.parameters) && fs.required == RequiredNames(def.parameters)
  }

  /** `BaseTool`: the tools registered on construction, in registration order. */
  class BaseTool {
    var names: seq<string>
    var tools: map<string, ToolDefinition>

    ghost predicate Valid()
      reads this
    {
      NoDup(names) && forall n :: n in names <==> n in tools
    }

    /** `__init__` with `_register_tools` over the attributes `dir()` lists. */
    constructor (attributes: seq<Attribute>)
      requires DistinctNames(attributes)
      ensures Valid()
      ensures names == RegisteredNames(attributes) && tools == RegistryOf(attributes)
    {
      var ns: seq<string> := [];
      var ts: map<string, ToolDefinition> := map[];
      var k := 0;
      while k < |attributes|
        invariant 0 <= k <= |attributes|
        invariant ns == RegisteredNames(attributes[..k]) && ts == RegistryOf(attributes[..k])
      {
        var a := attributes[k];
        if !StartsWith(a.name, "_") && a.def.Some? {
          ts := ts[a.name := a.def.value];
          ns := ns + [a.name];
        }
        assert attributes[..k + 1][..k] == attributes[..k];
        k := k + 1;
      }
      assert attributes[..k] == attributes;
      RegistryOfSpec(attributes);
      names := ns;
      tools := ts;
    }

    /** `get_tools`: the registered definitions in registration order. */
    method GetTools() returns (defs: seq<ToolDefinition>)
      requires Valid()
      ensures |defs| == |names|
      ensures forall i :: 0 <= i < |names| ==> defs[i] == tools[names[i]]
    {
      defs := [];
      var k := 0;
      while k < |names|
        invariant 0 <= k <= |names|
        invariant |defs| == k
        invariant forall i :: 0 <= i < k ==> defs[i] == tools[names[i]]
      {
        defs := defs + [tools[names[k]]];
        k := k + 1;
      }
    }

    /** `get_tool` */
    function GetTool(name: string): (r: Option<ToolDefinition>)
      reads this
      ensures r.Some? <==> name in tools
      ensures r.Some? ==> r.value == tools[name]
    {
      if name in tools then Some(tools[name]) else None
    }

    /** `execute`: an unknown name is a failure; otherwise what the tool's
        undecorated function returns comes back as it is, an exception
        turning into a failure. */
    method Execute(name: string, call: ToolDefinition -> CallOutcome) returns (r: ExecResult)
      ensures name !in tools ==> r == ToolReturn(FailureResult("Unknown tool: " + name, map[]))
      ensures name in tools ==> match call(tools[name])
        case ReturnedTool(t) => r == ToolReturn(t)
        case Returned(v) => r == RawReturn(v)
        case Raised(m) => r == ToolReturn(FailureResult(m, map[]))
    {
      if name !in tools {
        return ToolReturn(FailureResult("Unknown tool: " + name, map[]));
      }
      match call(tools[name])
      case ReturnedTool(t) => r := ToolReturn(t);
      case Returned(v) => r := RawReturn(v);
      case Raised(m) => r := ToolReturn(FailureResult(m, map[]));
    }

    /** `to_function_schemas`: one schema per registered tool, in order. */
    method ToFunctionSchemas() returns (schemas: seq<FunctionSchema>)
      requires Valid()
      ensures |schemas| == |names|
      ensures forall i :: 0 <= i < |names| ==> SchemaOf(schemas[i], tools[names[i]])
    {
      var defs := GetTools();
      schemas := [];
      var k := 0;
      while k < |defs|
        invariant 0 <= k <= |defs|
        invariant |schemas| == k
        invariant forall i :: 0 <= i < k ==> SchemaOf(schemas[i], defs[i])
      {
        var fs := ToFunctionSchema(defs[k]);
        assert SchemaOf(fs, defs[k]);
        schemas := schemas + [fs];
        k := k + 1;
      }
    }
  }
}
