/** The service's own tools, answered without the MCP gateway (`LOCAL_TOOLS`). */
module Registry {
  import opened Wrappers
  import opened Dicts
  import opened Json

  /** The coroutine functions a local tool can name; the source defines one. */
  datatype Handler = GenerateNumber

  /**
   * A registry entry's payload. A field that is `None` is a key the payload
   * dictionary does not hold.
   */
  datatype LocalTool = LocalTool(
    description: Option<string>,
    parameters: Option<map<string, Json>>,
    handler: Option<Handler>)
  {
    /** An empty payload dictionary is falsy, so its name is treated as not local. */
    predicate IsEmpty()
    {
      description.None? && parameters.None? && handler.None?
    }
  }

  /** A dictionary from tool name to payload, in insertion order. */
  type Registry = Dict<LocalTool>

  const GenerateNumberName: string := "demo.generate_number"

  const GenerateNumberSchema: map<string, Json> := map[
    "type" := JStr("object"),
    "properties" := JObj(map[
      "value" := JObj(map[
        "type" := JStr("integer"),
        "description" := JStr("The integer to echo back."),
        "default" := JInt(10),
        "minimum" := JInt(-1_000_000),
        "maximum" := JInt(1_000_000)])])]

  /** The registry as the service starts with it: the demo number generator only. */
  const LocalToolRegistry: Registry := [
    (GenerateNumberName,
     LocalTool(
       Some("Returns the provided integer (defaults to 10). Useful for diagnostics and tests."),
       Some(GenerateNumberSchema),
       Some(GenerateNumber)))]
}
