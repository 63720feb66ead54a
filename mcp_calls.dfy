/** Calling a tool through the MCP client (`_call_mcp_tool`), once a client has been obtained. */
module McpCalls {
  import opened Wrappers
  import opened Dicts
  import opened Json
  import opened Results
  import opened McpTools

  const Unavailable: string := "MCP tools are not available right now."

  function NotRegistered(name: string): string
  {
    "Tool '" + name + "' is not registered."
  }

  function ToolFailed(name: string, message: string): string
  {
    "Tool '" + name + "' failed: " + message
  }

  /** A client that can serve calls: present and initialized. */
  predicate Usable(client: Option<Toolkit>)
  {
    client.Some? && client.value.initialized
  }

  /** The entrypoint registered under `name`, if the client is usable and has one. */
  function Entrypoint(client: Option<Toolkit>, name: string): Option<Arguments -> CallOutcome>
  {
    if !Usable(client) then None
    else
      match Get(client.value.functions, name)
      case None => None
      case Some(f) => f.entrypoint
  }

  /**
   * `_call_mcp_tool` given the client `_ensure_connected_if_stale` returned:
   * 503 without a usable client, 404 for a name without an entrypoint, the
   * tool's own HTTP error unchanged, 500 for any other exception it raises,
   * and otherwise its normalized result tagged "mcp".
   */
  function CallMcpTool(client: Option<Toolkit>, name: string, args: Arguments): (r: Result<ToolCallResponse, Failure>)
    ensures !Usable(client) ==> r == Err(Http(503, Unavailable))
    ensures Usable(client) && Entrypoint(client, name).None? ==> r == Err(Http(404, NotRegistered(name)))
    ensures r.Ok? <==> Entrypoint(client, name).Some? && Entrypoint(client, name).value(args).Returned?
    ensures r.Ok? ==> r.value == Normalized(name, Mcp, Entrypoint(client, name).value(args).result)
    ensures r.Err? ==> r.error.Http?
    ensures r.Err? ==>
      || r.error.status in {503, 404, 500}
      || (Entrypoint(client, name).Some? && Entrypoint(client, name).value(args) == RaisedHttp(r.error.status, r.error.detail))
  {
    if !Usable(client) then Err(Http(503, Unavailable))
    else
      match Get(client.value.functions, name)
      case None => Err(Http(404, NotRegistered(name)))
      case Some(f) =>
        match f.entrypoint
        case None => Err(Http(404, NotRegistered(name)))
        case Some(entrypoint) =>
          match entrypoint(args)
          case RaisedHttp(status, detail) => Err(Http(status, detail))
          case Raised(message) => Err(Http(500, ToolFailed(name, message)))
          case Returned(result) => Ok(Normalized(name, Mcp, result))
  }

  /** A tool's HTTP error reaches the caller unchanged; every other exception it raises becomes a 500 naming the tool. */
  lemma ToolExceptionsClassified(client: Option<Toolkit>, name: string, args: Arguments)
    requires Entrypoint(client, name).Some?
    ensures Entrypoint(client, name).value(args).RaisedHttp? ==>
      CallMcpTool(client, name, args) ==
        Err(Http(Entrypoint(client, name).value(args).status, Entrypoint(client, name).value(args).detail))
    ensures Entrypoint(client, name).value(args).Raised? ==>
      CallMcpTool(client, name, args) == Err(Http(500, ToolFailed(name, Entrypoint(client, name).value(args).message)))
  {
  }
}
