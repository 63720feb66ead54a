/**
 * Tool descriptors as `GET /tools` lists them, and the two ways they are
 * produced: from an MCP function (`_serialize_function`) and from the local
 * registry (`_serialize_local_tools`).
 */
module Descriptors {
  import opened Wrappers
  import opened Dicts
  import opened Json
  import opened Results
  import opened McpTools
  import opened Registry

  datatype ToolDescriptor = ToolDescriptor(
    name: string,
    description: Option<string>,
    parameters: map<string, Json>,
    origin: Origin)

  /** The schema a tool without parameters is given: `{"type": "object", "properties": {}}`. */
  const EmptySchema: map<string, Json> := map["type" := JStr("object"), "properties" := JObj(map[])]

  /** Every descriptor the service produces has a non-empty parameter schema. */
  predicate HasSchema(d: ToolDescriptor)
  {
    |d.parameters| != 0
  }

  /** `data.get(key)`, with an absent key read as `None`. */
  function Field(data: map<string, Json>, key: string): Json
  {
    if key in data then data[key] else JNull
  }

  /**
   * `_serialize_function`: the descriptor built from `to_dict()`, or the name
   * of the field that `ToolDescriptor` validation rejects (a name that is not
   * a string, a description that is neither a string nor null, parameters
   * that are truthy but not an object).
   */
  function SerializeFunction(f: McpFunction): (r: Result<ToolDescriptor, string>)
    ensures r.Ok? ==> r.value.origin == Mcp && HasSchema(r.value)
    ensures r.Ok? && "name" !in f.dict ==> r.value.name == f.name
    ensures r.Ok? && "name" in f.dict ==> f.dict["name"] == JStr(r.value.name)
    ensures r.Ok? && !Truthy(Field(f.dict, "parameters")) ==> r.value.parameters == EmptySchema
    ensures Truthy(Field(f.dict, "parameters")) && r.Ok? ==> Field(f.dict, "parameters") == JObj(r.value.parameters)
    ensures r.Ok? ==> (r.value.description.None? <==> Field(f.dict, "description") == JNull)
    ensures r.Ok? && Field(f.dict, "description").JStr? ==> r.value.description == Some(Field(f.dict, "description").s)
    ensures r.Err? <==>
      || ("name" in f.dict && !f.dict["name"].JStr?)
      || !(Field(f.dict, "description").JNull? || Field(f.dict, "description").JStr?)
      || (Truthy(Field(f.dict, "parameters")) && !Field(f.dict, "parameters").JObj?)
  {
    var name := if "name" in f.dict then f.dict["name"] else JStr(f.name);
    var description := Field(f.dict, "description");
    var parameters := Field(f.dict, "parameters");
    if !name.JStr? then Err("name")
    else if !(description.JNull? || description.JStr?) then Err("description")
    else if Truthy(parameters) && !parameters.JObj? then Err("parameters")
    else
      Ok(ToolDescriptor(
        name.s,
        if description.JStr? then Some(description.s) else None,
        if Truthy(parameters) then parameters.fields else EmptySchema,
        Mcp))
  }

  /**
   * One descriptor per function, in dictionary order, or `None` when any one of
   * them fails validation (the generator passed to `extend` raises).
   */
  function SerializeFunctions(functions: Dict<McpFunction>): (r: Option<seq<ToolDescriptor>>)
    ensures r.Some? <==> forall i :: 0 <= i < |functions| ==> SerializeFunction(functions[i].1).Ok?
    ensures r.Some? ==> |r.value| == |functions|
    ensures r.Some? ==> forall i :: 0 <= i < |functions| ==> r.value[i] == SerializeFunction(functions[i].1).value
  {
    if functions == [] then Some([])
    else
      var init := functions[..|functions| - 1];
      match SerializeFunctions(init)
      case None => None
      case Some(ds) =>
        match SerializeFunction(functions[|functions| - 1].1)
        case Err(_) => None
        case Ok(d) => Some(ds + [d])
  }

  /** The descriptor `_serialize_local_tools` builds for one registry entry. */
  function DescribeLocal(name: string, payload: LocalTool): (d: ToolDescriptor)
    ensures d.name == name && d.origin == Local && d.description == payload.description
    ensures HasSchema(d)
    ensures payload.parameters.Some? && |payload.parameters.value| != 0 ==> d.parameters == payload.parameters.value
    ensures payload.parameters.None? || |payload.parameters.value| == 0 ==> d.parameters == EmptySchema
  {
    var parameters :=
      if payload.parameters.Some? && |payload.parameters.value| != 0 then payload.parameters.value
      else EmptySchema;
    ToolDescriptor(name, payload.description, parameters, Local)
  }

  /** The local descriptors: one per registry entry, in registry order. */
  function LocalDescriptors(registry: Registry): (ds: seq<ToolDescriptor>)
    ensures |ds| == |registry|
    ensures forall i :: 0 <= i < |registry| ==> ds[i] == DescribeLocal(registry[i].0, registry[i].1)
  {
    if registry == [] then []
    else [DescribeLocal(registry[0].0, registry[0].1)] + LocalDescriptors(registry[1..])
  }

  /** `_serialize_local_tools`: appends one descriptor per registry entry. */
  method SerializeLocalTools(registry: Registry) returns (descriptors: seq<ToolDescriptor>)
    ensures descriptors == LocalDescriptors(registry)
  {
    descriptors := [];
    var i := 0;
    while i < |registry|
      invariant 0 <= i <= |registry|
      invariant |descriptors| == i
      invariant forall j :: 0 <= j < i ==> descriptors[j] == DescribeLocal(registry[j].0, registry[j].1)
    {
      var (name, payload) := registry[i];
      descriptors := descriptors + [DescribeLocal(name, payload)];
      i := i + 1;
    }
  }

  /** Every local descriptor is tagged "local" and carries a schema; the registry's names are listed in order. */
  lemma LocalDescriptorsShape(registry: Registry)
    ensures forall d :: d in LocalDescriptors(registry) ==> d.origin == Local && HasSchema(d)
    ensures forall i :: 0 <= i < |registry| ==> LocalDescriptors(registry)[i].name == registry[i].0
  {
  }

  /** The descriptors the service starts with: the demo tool, with its own schema. */
  lemma ServiceLocalDescriptors()
    ensures LocalDescriptors(LocalToolRegistry) == [
      ToolDescriptor(
        GenerateNumberName,
        Some("Returns the provided integer (defaults to 10). Useful for diagnostics and tests."),
        GenerateNumberSchema,
        Local)]
  {
  }
}
