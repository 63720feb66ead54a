/**
 * Calling a tool from the local registry (`_call_local_tool`) and the one
 * handler the registry holds (`_generate_number`).
 */
module LocalCalls {
  import opened Wrappers
  import opened Dicts
  import opened Json
  import opened Numbers
  import opened Results
  import opened Registry

  const GenerateNumberPrefix: string := "demo.generate_number produced value: "

  /** What `_generate_number` returns once `int(value)` has produced `n`: text that reads back as `n`. */
  function GenerateNumberResult(n: int): (r: ToolResult)
    ensures r.images == [] && r.videos == [] && r.audios == [] && r.files == []
    ensures |r.content| > |GenerateNumberPrefix| && r.content[..|GenerateNumberPrefix|] == GenerateNumberPrefix
    ensures ParseInt(r.content[|GenerateNumberPrefix|..]) == Some(n)
  {
    var content := GenerateNumberPrefix + IntToString(n);
    assert content[|GenerateNumberPrefix|..] == IntToString(n);
    IntRoundTrip(n);
    TextResult(content)
  }

  const NotDecimal: string := "ValueError: invalid literal for int() with base 10"
  const NotNumeric: string := "TypeError: int() argument must be a string, a bytes-like object or a real number"

  /**
   * Python's `int(value)` on a decoded JSON value: integers as they are, booleans
   * as 0 and 1, decimal strings parsed; anything else raises.
   */
  function PyInt(v: Json): (r: Result<int, string>)
    ensures v.JInt? ==> r == Ok(v.n)
    ensures v.JBool? ==> r == Ok(if v.b then 1 else 0)
    ensures v.JStr? ==> (r.Ok? <==> ParseInt(v.s).Some?)
    ensures v.JStr? && r.Ok? ==> ParseInt(v.s) == Some(r.value)
    ensures v.JNull? || v.JArr? || v.JObj? ==> r.Err?
  {
    if v.JInt? then Ok(v.n)
    else if v.JBool? then Ok(if v.b then 1 else 0)
    else if v.JStr? then
      var parsed := ParseInt(v.s);
      if parsed.Some? then Ok(parsed.value) else Err(NotDecimal)
    else Err(NotNumeric)
  }

  /** How running a handler can go wrong. */
  datatype HandlerFailure =
    | BadArguments(message: string)   // binding `**arguments` raised TypeError
    | RaisedOnAwait(reason: string)   // the coroutine raised while being awaited

  /** The text of the TypeError that binding an unknown keyword raises. */
  const UnexpectedKeyword: string := "_generate_number() got an unexpected keyword argument"

  /**
   * Binding `**arguments` to `_generate_number(value: int = 10)`: the value of
   * `value` (10 when absent), or a TypeError for any other keyword.
   */
  function BindGenerateNumber(args: Arguments): (r: Result<Json, string>)
    ensures r.Err? <==> !(args.Keys <= {"value"})
    ensures r.Ok? && "value" in args ==> r.value == args["value"]
    ensures r.Ok? && "value" !in args ==> r.value == JInt(10)
  {
    if !(args.Keys <= {"value"}) then Err(UnexpectedKeyword)
    else if "value" in args then Ok(args["value"])
    else Ok(JInt(10))
  }

  /** Calling a handler with keyword arguments and awaiting it. */
  function RunHandler(h: Handler, args: Arguments): (r: Result<ToolResult, HandlerFailure>)
    ensures r.Err? && r.error.BadArguments? <==> !(args.Keys <= {"value"})
    ensures args == map[] ==> r == Ok(GenerateNumberResult(10))
    ensures forall n: int :: args == map["value" := JInt(n)] ==> r == Ok(GenerateNumberResult(n))
  {
    match h
    case GenerateNumber =>
      match BindGenerateNumber(args)
      case Err(message) => Err(BadArguments(message))
      case Ok(value) =>
        match PyInt(value)
        case Err(reason) => Err(RaisedOnAwait(reason))
        case Ok(n) => Ok(GenerateNumberResult(n))
  }

  /**
   * `_call_local_tool`: `None` when the name is not a (non-empty) registry
   * entry, so that the caller goes on to the MCP tools; otherwise the
   * handler's normalized result or the failure it ends in.
   */
  function CallLocalTool(registry: Registry, name: string, args: Arguments): (r: Option<Result<ToolCallResponse, Failure>>)
    ensures r.None? <==> Get(registry, name).None? || Get(registry, name).value.IsEmpty()
    ensures r.Some? && r.value.Ok? ==> r.value.value.name == name && r.value.value.origin == Local
    ensures r.Some? && r.value.Err? && r.value.error.Http? ==> r.value.error.status in {400, 500}
    ensures r.Some? && r.value == Err(Http(500, "Local tool '" + name + "' is not configured correctly.")) <==>
      r.Some? && Get(registry, name).value.handler.None?
    ensures r.Some? && r.value.Err? && r.value.error.Http? && r.value.error.status == 400 <==>
      r.Some? && Get(registry, name).value.handler.Some? && !(args.Keys <= {"value"})
  {
    match Get(registry, name)
    case None => None
    case Some(payload) =>
      if payload.IsEmpty() then None
      else
        match payload.handler
        case None => Some(Err(Http(500, "Local tool '" + name + "' is not configured correctly.")))
        case Some(h) =>
          match RunHandler(h, args)
          case Err(BadArguments(message)) =>
            Some(Err(Http(400, "Invalid arguments for '" + name + "': " + message)))
          case Err(RaisedOnAwait(reason)) => Some(Err(Unhandled(reason)))
          case Ok(result) => Some(Ok(Normalized(name, Local, result)))
  }

  /** The demo tool answers any integer `value` with text naming it, and no metadata. */
  lemma DemoToolEchoesValue(n: int)
    ensures var r := CallLocalTool(LocalToolRegistry, GenerateNumberName, map["value" := JInt(n)]);
      && r.Some? && r.value.Ok?
      && r.value.value.content == GenerateNumberPrefix + IntToString(n)
      && ParseInt(r.value.value.content[|GenerateNumberPrefix|..]) == Some(n)
      && r.value.value.metadata == map[]
  {
    MetadataEmptyIffNoMedia(GenerateNumberResult(n));
  }

  /** With no arguments the demo tool reports 10. */
  lemma DemoToolDefault()
    ensures CallLocalTool(LocalToolRegistry, GenerateNumberName, map[]) ==
      Some(Ok(ToolCallResponse(GenerateNumberName, GenerateNumberPrefix + "10", Local, map[])))
  {
    assert IntToString(10) == "10";
    MetadataEmptyIffNoMedia(GenerateNumberResult(10));
  }

  /** An argument the demo tool does not take is a 400. */
  lemma DemoToolRejectsUnknownArgument(key: string, v: Json)
    requires key != "value"
    ensures CallLocalTool(LocalToolRegistry, GenerateNumberName, map[key := v]) ==
      Some(Err(Http(400, "Invalid arguments for '" + GenerateNumberName + "': " + UnexpectedKeyword)))
  {
    var args := map[key := v];
    assert key in args.Keys && !(args.Keys <= {"value"});
    assert Get(LocalToolRegistry, GenerateNumberName) == Some(LocalToolRegistry[0].1);
    assert RunHandler(GenerateNumber, args) == Err(BadArguments(UnexpectedKeyword));
  }
}
