/**
 * The tool service's mutable state (`toolkit`, `tool_cache`, `last_refresh`)
 * and the operations that change it: `_ensure_toolkit`,
 * `_ensure_connected_if_stale`, `list_tools` and `call_tool`.
 *
 * Each operation is one atomic step. Its effect is first given as a function
 * of the old state and of the outcomes of the foreign calls it makes (the
 * step functions below); the class `ToolService` then performs it by
 * assignment and is proved to agree with the step function.
 */
module Service {
  import opened Wrappers
  import opened Dicts
  import opened Json
  import opened Results
  import opened McpTools
  import opened Registry
  import opened Descriptors
  import opened LocalCalls
  import opened McpCalls

  /** A cached listing is refreshed once it is more than this many seconds old. */
  const StaleAfterSeconds: int := 60

  /** The three module globals. */
  datatype Snapshot = Snapshot(toolkit: Option<Toolkit>, cache: seq<ToolDescriptor>, lastRefresh: int)

  /**
   * `_ensure_toolkit(force)`: the state it leaves and the client it returns.
   * Every global is reassigned, so nothing of the previous state survives.
   */
  function RefreshStep(registry: Registry, force: bool, connect: ConnectOutcome, now: int): (r: (Snapshot, Option<Toolkit>))
    ensures r.0.lastRefresh == now
    ensures LocalDescriptors(registry) <= r.0.cache
    ensures r.1.Some? ==> r.0.toolkit == r.1
  {
    var local := LocalDescriptors(registry);
    var failed := Snapshot(if force then None else Some(connect.after), local, now);
    match connect
    case ConnectRaised(_) => (failed, None)
    case Connected(after) =>
      match SerializeFunctions(after.functions)
      case None => (failed, None)
      case Some(ds) => (Snapshot(Some(after), local + ds, now), Some(after))
  }

  /** The test `list_tools` applies before trying to reconnect. */
  predicate IsStale(s: Snapshot, now: int)
  {
    s.cache == [] || now - s.lastRefresh > StaleAfterSeconds
  }

  /**
   * `_ensure_connected_if_stale`: keep an initialized client that answers that
   * it is alive; otherwise a forced refresh.
   */
  function ReconnectStep(registry: Registry, s: Snapshot, liveness: Liveness, connect: ConnectOutcome, now: int): (r: (Snapshot, Option<Toolkit>))
    ensures r.0 == s || r.0.lastRefresh == now
  {
    if s.toolkit.Some? && s.toolkit.value.initialized && liveness == Alive then (s, s.toolkit)
    else RefreshStep(registry, true, connect, now)
  }

  /** `list_tools(force)`: the state after the call; the listing is that state's cache and timestamp. */
  function ListStep(registry: Registry, s: Snapshot, force: bool, liveness: Liveness, connect: ConnectOutcome, now: int): (r: Snapshot)
    ensures r == s || r.lastRefresh == now
  {
    if force then RefreshStep(registry, true, connect, now).0
    else if IsStale(s, now) then ReconnectStep(registry, s, liveness, connect, now).0
    else s
  }

  /** `call_tool`: local tools first; only a name that is not local reaches the MCP client. */
  function CallStep(registry: Registry, s: Snapshot, name: string, args: Arguments, liveness: Liveness, connect: ConnectOutcome, now: int): (r: (Snapshot, Result<ToolCallResponse, Failure>))
    ensures r.1.Ok? ==> r.1.value.name == name
  {
    match CallLocalTool(registry, name, args)
    case Some(result) => (s, result)
    case None =>
      var (s', client) := ReconnectStep(registry, s, liveness, connect, now);
      (s', CallMcpTool(client, name, args))
  }

  /**
   * The shape the cache keeps: once a refresh has happened the local
   * descriptors come first and everything after them came from the MCP
   * client; every descriptor has a parameter schema.
   */
  ghost predicate Consistent(registry: Registry, s: Snapshot)
  {
    && (s.toolkit.Some? || s.cache != [] ==> LocalDescriptors(registry) <= s.cache)
    && (forall i :: 0 <= i < |s.cache| ==> HasSchema(s.cache[i]))
    && (forall i :: |LocalDescriptors(registry)| <= i < |s.cache| ==> s.cache[i].origin == Mcp)
  }

  /** A successful connect caches the local descriptors followed by one descriptor per MCP function, in order. */
  lemma RefreshOnConnect(registry: Registry, force: bool, after: Toolkit, now: int)
    requires SerializeFunctions(after.functions).Some?
    ensures var (s, client) := RefreshStep(registry, force, Connected(after), now);
      && client == Some(after)
      && s.toolkit == Some(after)
      && s.lastRefresh == now
      && |s.cache| == |registry| + |after.functions|
      && s.cache[..|registry|] == LocalDescriptors(registry)
      && forall i :: 0 <= i < |after.functions| ==>
           s.cache[|registry| + i] == SerializeFunction(after.functions[i].1).value
  {
    var local := LocalDescriptors(registry);
    var ds := SerializeFunctions(after.functions).value;
    var cache := RefreshStep(registry, force, Connected(after), now).0.cache;
    assert cache == local + ds;
    assert |local| == |registry|;
    assert cache[..|registry|] == local;
    forall i | 0 <= i < |after.functions|
      ensures cache[|registry| + i] == SerializeFunction(after.functions[i].1).value
    {
      assert cache[|registry| + i] == ds[i];
    }
  }

  /**
   * A refresh that fails (connect raises, or a function fails validation)
   * leaves the local descriptors only, discarding any MCP descriptors cached
   * before; the client is dropped only when the refresh was forced.
   */
  lemma RefreshOnFailure(registry: Registry, force: bool, connect: ConnectOutcome, now: int)
    requires connect.ConnectRaised? || SerializeFunctions(connect.after.functions).None?
    ensures var (s, client) := RefreshStep(registry, force, connect, now);
      && client == None
      && s.cache == LocalDescriptors(registry)
      && s.lastRefresh == now
      && (force ==> s.toolkit == None)
      && (!force ==> s.toolkit == Some(connect.after))
  {
  }

  /** A refresh returns a client exactly when connect returned and every function validated. */
  lemma RefreshSucceedsIff(registry: Registry, force: bool, connect: ConnectOutcome, now: int)
    ensures RefreshStep(registry, force, connect, now).1.Some? <==>
      connect.Connected? && SerializeFunctions(connect.after.functions).Some?
  {
  }

  lemma RefreshConsistent(registry: Registry, force: bool, connect: ConnectOutcome, now: int)
    ensures Consistent(registry, RefreshStep(registry, force, connect, now).0)
  {
    var local := LocalDescriptors(registry);
    LocalDescriptorsShape(registry);
    var s := RefreshStep(registry, force, connect, now).0;
    if connect.Connected? && SerializeFunctions(connect.after.functions).Some? {
      var ds := SerializeFunctions(connect.after.functions).value;
      assert s.cache == local + ds;
      forall i | 0 <= i < |s.cache|
        ensures HasSchema(s.cache[i])
      {
        if i < |local| {
          assert s.cache[i] == local[i];
          assert s.cache[i] in local;
        } else {
          assert s.cache[i] == ds[i - |local|];
        }
      }
      forall i | |local| <= i < |s.cache|
        ensures s.cache[i].origin == Mcp
      {
        assert s.cache[i] == ds[i - |local|];
      }
    } else {
      assert s.cache == local;
      forall i | 0 <= i < |s.cache|
        ensures HasSchema(s.cache[i])
      {
        assert s.cache[i] in local;
      }
    }
  }

  /** Serializing one more function extends the serialized prefix by its descriptor. */
  lemma SerializeFunctionsExtend(functions: Dict<McpFunction>, i: nat)
    requires i < |functions|
    requires SerializeFunctions(functions[..i]).Some?
    requires SerializeFunction(functions[i].1).Ok?
    ensures SerializeFunctions(functions[..i + 1]) ==
      Some(SerializeFunctions(functions[..i]).value + [SerializeFunction(functions[i].1).value])
  {
    assert functions[..i + 1][..i] == functions[..i];
  }

  /** Without a client, `_ensure_connected_if_stale` is a forced refresh. */
  lemma ReconnectWithoutClient(registry: Registry, s: Snapshot, liveness: Liveness, connect: ConnectOutcome, now: int)
    requires s.toolkit.None?
    ensures ReconnectStep(registry, s, liveness, connect, now) == RefreshStep(registry, true, connect, now)
  {
  }

  /** An initialized client that is alive is returned as it is, and the cache is left alone. */
  lemma ReconnectKeepsLiveClient(registry: Registry, s: Snapshot, connect: ConnectOutcome, now: int)
    requires s.toolkit.Some? && s.toolkit.value.initialized
    ensures ReconnectStep(registry, s, Alive, connect, now) == (s, s.toolkit)
  {
  }

  /** A client that is not initialized, not alive, or whose liveness check raises is replaced by a forced refresh. */
  lemma ReconnectOtherwiseRefreshes(registry: Registry, s: Snapshot, liveness: Liveness, connect: ConnectOutcome, now: int)
    requires s.toolkit.Some?
    requires !s.toolkit.value.initialized || liveness != Alive
    ensures ReconnectStep(registry, s, liveness, connect, now) == RefreshStep(registry, true, connect, now)
  {
  }

  /** `list_tools(force=true)` always performs a forced refresh. */
  lemma ListForced(registry: Registry, s: Snapshot, liveness: Liveness, connect: ConnectOutcome, now: int)
    ensures ListStep(registry, s, true, liveness, connect, now) == RefreshStep(registry, true, connect, now).0
  {
  }

  /**
   * Cache hit: a non-forced listing of a non-empty cache at most 60 seconds
   * old changes nothing, whatever the gateway would have answered.
   */
  lemma ListCacheHit(registry: Registry, s: Snapshot, liveness: Liveness, connect: ConnectOutcome, now: int)
    requires s.cache != [] && now - s.lastRefresh <= StaleAfterSeconds
    ensures ListStep(registry, s, false, liveness, connect, now) == s
  {
  }

  /**
   * A stale listing with a live client does not refresh: the old cache and the
   * old timestamp are returned again.
   */
  lemma ListStaleWithLiveClient(registry: Registry, s: Snapshot, connect: ConnectOutcome, now: int)
    requires IsStale(s, now)
    requires s.toolkit.Some? && s.toolkit.value.initialized
    ensures ListStep(registry, s, false, Alive, connect, now) == s
  {
  }

  /**
   * A stale listing without a live client (none, not initialized, not alive,
   * or the liveness check raised) performs a forced refresh.
   */
  lemma ListStaleRefreshes(registry: Registry, s: Snapshot, liveness: Liveness, connect: ConnectOutcome, now: int)
    requires IsStale(s, now)
    requires !(s.toolkit.Some? && s.toolkit.value.initialized && liveness == Alive)
    ensures ListStep(registry, s, false, liveness, connect, now) == RefreshStep(registry, true, connect, now).0
  {
  }

  /** The staleness boundary is strict: exactly 60 seconds old is still fresh, 61 is stale. */
  lemma StalenessIsStrict(s: Snapshot)
    requires s.cache != []
    ensures !IsStale(s, s.lastRefresh + 60)
    ensures IsStale(s, s.lastRefresh + 61)
  {
  }

  /**
   * Every listing keeps the cache's shape and starts with the local
   * descriptors, whatever the MCP client does.
   */
  lemma ListConsistent(registry: Registry, s: Snapshot, force: bool, liveness: Liveness, connect: ConnectOutcome, now: int)
    requires Consistent(registry, s)
    ensures Consistent(registry, ListStep(registry, s, force, liveness, connect, now))
    ensures LocalDescriptors(registry) <= ListStep(registry, s, force, liveness, connect, now).cache
  {
    RefreshConsistent(registry, true, connect, now);
    if !force && IsStale(s, now) && s.toolkit.None? {
      assert ListStep(registry, s, force, liveness, connect, now) == RefreshStep(registry, true, connect, now).0;
    }
  }

  /**
   * Within 60 seconds of any refresh, a non-forced listing by the service
   * (whose registry is never empty) does not contact the gateway.
   */
  lemma NoRefreshWithinWindow(force: bool, connect: ConnectOutcome, t: int, liveness: Liveness, connect': ConnectOutcome, now: int)
    requires now - t <= StaleAfterSeconds
    ensures var s := RefreshStep(LocalToolRegistry, force, connect, t).0;
      ListStep(LocalToolRegistry, s, false, liveness, connect', now) == s
  {
    var s := RefreshStep(LocalToolRegistry, force, connect, t).0;
    assert |LocalDescriptors(LocalToolRegistry)| == 1;
    assert s.cache != [];
  }

  /** A name served by a local tool never reaches the MCP client, and the state is unchanged. */
  lemma LocalToolsShadowMcp(registry: Registry, s: Snapshot, name: string, args: Arguments, liveness: Liveness, connect: ConnectOutcome, now: int)
    requires CallLocalTool(registry, name, args).Some?
    ensures CallStep(registry, s, name, args, liveness, connect, now) == (s, CallLocalTool(registry, name, args).value)
  {
  }

  /** A name that is not local is served by the client `_ensure_connected_if_stale` yields. */
  lemma OtherNamesGoToMcp(registry: Registry, s: Snapshot, name: string, args: Arguments, liveness: Liveness, connect: ConnectOutcome, now: int)
    requires CallLocalTool(registry, name, args).None?
    ensures var (s', client) := ReconnectStep(registry, s, liveness, connect, now);
      CallStep(registry, s, name, args, liveness, connect, now) == (s', CallMcpTool(client, name, args))
  {
  }

  /**
   * Every HTTP error `call_tool` raises has status 400, 404, 500 or 503, or
   * else the name is not local and the error is exactly the HTTP error raised
   * by the entrypoint of the client that reconnection returned.
   */
  lemma CallErrorClassification(registry: Registry, s: Snapshot, name: string, args: Arguments, liveness: Liveness, connect: ConnectOutcome, now: int)
    ensures var (s', r) := CallStep(registry, s, name, args, liveness, connect, now);
      var client := ReconnectStep(registry, s, liveness, connect, now).1;
      r.Err? && r.error.Http? ==>
        || r.error.status in {400, 404, 500, 503}
        || (CallLocalTool(registry, name, args).None? && Entrypoint(client, name).Some? &&
              Entrypoint(client, name).value(args) == RaisedHttp(r.error.status, r.error.detail))
  {
    if CallLocalTool(registry, name, args).None? {
      var (s', client) := ReconnectStep(registry, s, liveness, connect, now);
      var r := CallMcpTool(client, name, args);
      if r.Err? && r.error.status !in {400, 404, 500, 503} {
        assert Entrypoint(client, name).Some? &&
          Entrypoint(client, name).value(args) == RaisedHttp(r.error.status, r.error.detail);
      }
    }
  }

  /** A call keeps the cache's shape. */
  lemma CallConsistent(registry: Registry, s: Snapshot, name: string, args: Arguments, liveness: Liveness, connect: ConnectOutcome, now: int)
    requires Consistent(registry, s)
    ensures Consistent(registry, CallStep(registry, s, name, args, liveness, connect, now).0)
  {
    RefreshConsistent(registry, true, connect, now);
  }

  class ToolService {
    const registry: Registry
    var toolkit: Option<Toolkit>
    var toolCache: seq<ToolDescriptor>
    var lastRefresh: int

    function State(): Snapshot
      reads this
    {
      Snapshot(toolkit, toolCache, lastRefresh)
    }

    ghost predicate Valid()
      reads this
    {
      Consistent(registry, State())
    }

    /** The state at import time: no client, an empty cache, timestamp 0. */
    constructor ()
      ensures Valid()
      ensures registry == LocalToolRegistry
      ensures State() == Snapshot(None, [], 0)
    {
      registry := LocalToolRegistry;
      toolkit := None;
      toolCache := [];
      lastRefresh := 0;
    }

    /**
     * `_ensure_toolkit(force)`. `connect` reports what the client's `connect`
     * did and the state it left the client in (whether the client was created
     * just before or reused).
     */
    method EnsureToolkit(force: bool, connect: ConnectOutcome, now: int) returns (client: Option<Toolkit>)
      requires Valid()
      modifies this
      ensures Valid()
      ensures (State(), client) == RefreshStep(registry, force, connect, now)
    {
      toolkit := Some(connect.after);
      if connect.Connected? {
        toolCache := SerializeLocalTools(registry);
        var extended := ExtendWithFunctions(connect.after.functions);
        if extended {
          lastRefresh := now;
          client := toolkit;
          RefreshConsistent(registry, force, connect, now);
          return;
        }
      }
      if force {
        toolkit := None;
      }
      toolCache := SerializeLocalTools(registry);
      lastRefresh := now;
      client := None;
      RefreshConsistent(registry, force, connect, now);
    }

    /**
     * `tool_cache.extend(...)` over the client's functions: appends one
     * descriptor per function, and reports false as soon as one fails
     * validation (the cache is then reassigned by the caller).
     */
    method ExtendWithFunctions(functions: Dict<McpFunction>) returns (extended: bool)
      modifies this
      ensures toolkit == old(toolkit) && lastRefresh == old(lastRefresh)
      ensures extended <==> SerializeFunctions(functions).Some?
      ensures extended ==> toolCache == old(toolCache) + SerializeFunctions(functions).value
    {
      var i := 0;
      extended := true;
      while i < |functions| && extended
        invariant 0 <= i <= |functions|
        invariant toolkit == old(toolkit) && lastRefresh == old(lastRefresh)
        invariant extended ==> SerializeFunctions(functions[..i]).Some?
        invariant extended ==> toolCache == old(toolCache) + SerializeFunctions(functions[..i]).value
        invariant !extended ==> SerializeFunctions(functions).None?
        decreases |functions| - i + (if extended then 1 else 0)
      {
        match SerializeFunction(functions[i].1) {
          case Ok(d) =>
            SerializeFunctionsExtend(functions, i);
            toolCache := toolCache + [d];
            i := i + 1;
          case Err(_) =>
            extended := false;
        }
      }
      if extended {
        assert functions[..i] == functions;
      }
    }

    /** `_ensure_connected_if_stale`. */
    method EnsureConnectedIfStale(liveness: Liveness, connect: ConnectOutcome, now: int) returns (client: Option<Toolkit>)
      requires Valid()
      modifies this
      ensures Valid()
      ensures (State(), client) == ReconnectStep(registry, old(State()), liveness, connect, now)
    {
      if toolkit.None? {
        client := EnsureToolkit(true, connect, now);
        return;
      }
      if toolkit.value.initialized {
        match liveness {
          case Alive =>
            client := toolkit;
            return;
          case NotAlive =>
          case LivenessRaised =>
        }
      }
      client := EnsureToolkit(true, connect, now);
    }

    /** `GET /tools`: the cached descriptors, which always start with the local ones, and their timestamp. */
    method ListTools(force: bool, liveness: Liveness, connect: ConnectOutcome, now: int)
      returns (tools: seq<ToolDescriptor>, updatedAt: int)
      requires Valid()
      modifies this
      ensures Valid()
      ensures State() == ListStep(registry, old(State()), force, liveness, connect, now)
      ensures tools == toolCache && updatedAt == lastRefresh
      ensures LocalDescriptors(registry) <= tools
    {
      ListConsistent(registry, State(), force, liveness, connect, now);
      if force {
        var _ := EnsureToolkit(true, connect, now);
      } else if |toolCache| == 0 || now - lastRefresh > StaleAfterSeconds {
        var _ := EnsureConnectedIfStale(liveness, connect, now);
      }
      tools, updatedAt := toolCache, lastRefresh;
    }

    /** `POST /call-tool`. */
    method CallTool(name: string, args: Arguments, liveness: Liveness, connect: ConnectOutcome, now: int)
      returns (r: Result<ToolCallResponse, Failure>)
      requires Valid()
      modifies this
      ensures Valid()
      ensures (State(), r) == CallStep(registry, old(State()), name, args, liveness, connect, now)
    {
      var local := CallLocalTool(registry, name, args);
      if local.Some? {
        r := local.value;
        return;
      }
      var client := EnsureConnectedIfStale(liveness, connect, now);
      r := CallMcpTool(client, name, args);
    }
  }
}
