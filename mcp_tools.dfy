/**
 * The MCP client library as the tool service sees it. Every call into it
 * (connect, is_alive, to_dict, a function's entrypoint) is a foreign,
 * asynchronous network call; here each is an outcome handed in from outside.
 */
module McpTools {
  import opened Wrappers
  import opened Dicts
  import opened Json
  import opened Results

  /** What awaiting a function's entrypoint with some keyword arguments does. */
  datatype CallOutcome =
    | Returned(result: ToolResult)
    | RaisedHttp(status: int, detail: string)
    | Raised(message: string)

  /**
   * One remote function: its `name` attribute, the dictionary its `to_dict()`
   * returns, and its entrypoint if it has one.
   */
  datatype McpFunction = McpFunction(
    name: string,
    dict: map<string, Json>,
    entrypoint: Option<Arguments -> CallOutcome>)

  /** The client object: its `initialized` flag and its `functions` dictionary in insertion order. */
  datatype Toolkit = Toolkit(initialized: bool, functions: Dict<McpFunction>)

  /**
   * `connect(force=...)` either returns or raises; either way the client object
   * is left in some state, which is what `after` records.
   */
  datatype ConnectOutcome = Connected(after: Toolkit) | ConnectRaised(after: Toolkit)

  /** `is_alive()` answers true, answers false, or raises. */
  datatype Liveness = Alive | NotAlive | LivenessRaised
}
