# Tool service: directory cache and call dispatcher

A Dafny model of the tool service in `agent-service/app.py`. The service keeps a cache of tool descriptors: the tools it implements itself (the local registry) followed by the tools an MCP client reports. It answers `GET /tools` from that cache. Once the cache is more than 60 seconds old, a listing checks the MCP client and refreshes the cache only when the client is missing, not initialized or not alive. It dispatches `POST /call-tool` to a local tool first and only then to the MCP client. Its own failures are HTTP 400, 404, 500 or 503, and an HTTP error raised by an MCP tool is passed through with the tool's own status.

Modules, in dependency order:

- `Wrappers`: `Option` and `Result`.
- `Dicts`: Python dictionaries with string keys, as entries in insertion order, and `get`, which finds the one entry under a key when keys are distinct.
- `Json`: decoded JSON values and Python truthiness (`x or default`).
- `Numbers`: `str(int)` and the decimal part of `int(str)`, with a proved round trip.
- `Results`: `ToolResult`, `ToolCallResponse`, the `Failure` kinds, and `_normalize_tool_result`. That function is an imperative method that inserts metadata keys one by one. It is proved equal to a reference definition that has one count per non-empty media kind.
- `McpTools`: the MCP client library, reduced to values and outcomes:
  - a client has an `initialized` flag and an ordered `functions` dictionary;
  - a function has its `name`, its `to_dict()` result and an optional entrypoint;
  - `connect` either returns or raises, and in both cases reports the state the client is left in;
  - `is_alive` answers true, answers false, or raises.
- `Registry`: `LOCAL_TOOLS`, with the demo tool `demo.generate_number`.
- `Descriptors`: `_serialize_function` and `_serialize_local_tools`, including the `ToolDescriptor` validation that pydantic performs.
- `LocalCalls`: `_generate_number` (argument binding, `int(value)`, its text) and `_call_local_tool`.
- `McpCalls`: `_call_mcp_tool`, given the client that reconnection produced.
- `Service`: the three module globals (`toolkit`, `tool_cache`, `last_refresh`) and the operations that change them:
  - step functions (`RefreshStep`, `ReconnectStep`, `ListStep`, `CallStep`) give each operation's effect on the state, and lemmas state the caching and dispatch rules about them;
  - the class `ToolService` performs the same operations by assignment, and each operation method (`EnsureToolkit`, `EnsureConnectedIfStale`, `ListTools`, `CallTool`) is proved to agree with its step function and to keep the cache invariant `Consistent`. The helper `ExtendWithFunctions` is the `extend` loop inside a refresh; it is proved against `SerializeFunctions` instead.

Inputs the service takes from outside become parameters:

- the current time is an integer `now`, one value per operation;
- the outcome of `connect` is a `ConnectOutcome`;
- the outcome of `is_alive` is a `Liveness`;
- each MCP entrypoint is a total function from keyword arguments to a `CallOutcome`.

## Behaviour worth knowing

- A failed refresh resets the cache to the local descriptors only (`RefreshOnFailure`).
- One MCP function whose `to_dict()` fails descriptor validation sends the whole refresh down the failure branch (`RefreshSucceedsIff`).
- The staleness window is a fixed 60 seconds (`StaleAfterSeconds`).
- MCP descriptors are tagged `"mcp"`.
- A stale, non-forced listing only reconnects when the client is missing, not initialized or not alive. With a live client the cache is not refreshed: the old cache and the old timestamp are returned again (`ListStaleWithLiveClient`).

The test file calls the demo tool `demo_generate_number` and expects the text `demo_generate_number produced value: …`. The code registers `demo.generate_number` and produces `demo.generate_number produced value: …`. The model follows the code.

## Model

| member | source | states |
|---|---|---|
| `Numbers.IntToString` | agent-service/app.py:27 | the decimal text of an integer starts with a minus sign exactly when the integer is negative, and the rest is one or more ASCII digits without a leading zero |
| `Numbers.ParseInt` | agent-service/app.py:26 | a string is read exactly when it is one or more ASCII digits, or a minus sign followed by one or more ASCII digits; the value is the digits' decimal value, negated after a minus sign |
| `Numbers.IntRoundTrip` | agent-service/app.py:26-27 | reading back the text `str` writes for any integer gives that integer |
| `Results.Normalized` | agent-service/app.py:153 | the response copies the tool's name, the result's content and the origin through unchanged |
| `Results.NormalizeToolResult` | agent-service/app.py:143-153 | building the metadata by one conditional insert per media kind yields exactly the reference response: name, content and origin copied, one count per non-empty media list |
| `Results.MetadataCountsNonEmptyMedia` | agent-service/app.py:144-152 | a metadata key is present exactly when it is one of images, videos, audios, files and that list is non-empty, and its value is the list's length |
| `Results.MetadataEmptyIffNoMedia` | agent-service/app.py:144-153 | the metadata is `{}` exactly when the result carries no media at all |
| `Dicts.GetDistinct` | agent-service/app.py:157 | when the keys are distinct, as in a Python dictionary, `get` on any entry's key yields that entry's value |
| `Dicts.Get` | agent-service/app.py:179 | `d.get(key)`, used for `functions.get(name)` here and for `LOCAL_TOOLS.get(name)` at line 157: a value is found exactly when some entry has that key, and it is that entry's value |
| `Descriptors.SerializeFunction` | agent-service/app.py:82-89 | origin is always "mcp" and the schema is never empty; the name falls back to `func.name` only when `to_dict()` has no name; missing, null or falsy parameters become `{"type":"object","properties":{}}` and truthy ones are kept as given; validation fails exactly for a non-string name, a description that is neither string nor null, or truthy parameters that are not an object; a string description is kept as given and a null one becomes `None` |
| `Descriptors.SerializeFunctions` | agent-service/app.py:118 | succeeds exactly when every function validates, and then gives one descriptor per function in dictionary order |
| `Descriptors.DescribeLocal` | agent-service/app.py:95-102 | a local descriptor keeps the registry name and description, is tagged "local", and applies the same parameter defaulting |
| `Descriptors.LocalDescriptors` | agent-service/app.py:92-103 | exactly one descriptor per registry entry, at the entry's own position |
| `Descriptors.SerializeLocalTools` | agent-service/app.py:92-103 | the loop that appends one descriptor per registry entry produces exactly the local descriptors, in registry order |
| `Descriptors.LocalDescriptorsShape` | agent-service/app.py:94-101 | every local descriptor is tagged "local" and has a schema, and the i-th one carries the i-th registry name |
| `Descriptors.ServiceLocalDescriptors` | agent-service/app.py:30-45 | the service's registry yields the single descriptor of `demo.generate_number`, with its description and its `value` schema |
| `LocalCalls.GenerateNumberResult` | agent-service/app.py:25-27 | the demo tool's text is the fixed prefix followed by text that reads back as the value, with no media |
| `LocalCalls.PyInt` | agent-service/app.py:26 | `int(value)` keeps integers, maps booleans to 0 and 1, accepts a string exactly when it is a decimal integer and then yields the integer it reads as, and rejects null, lists and objects |
| `LocalCalls.BindGenerateNumber` | agent-service/app.py:25 | binding keyword arguments to `_generate_number(value=10)` fails exactly when a keyword other than `value` is given; otherwise it yields `value`, or 10 when absent |
| `LocalCalls.RunHandler` | agent-service/app.py:163-170 | calling the handler fails with a binding error exactly for unknown keywords; no arguments give the result for 10, an integer `value` the result for that integer |
| `LocalCalls.CallLocalTool` | agent-service/app.py:156-171 | no local answer exactly when the name is unregistered or its payload is empty; a success is named after the tool and tagged "local"; its HTTP errors are only 500 (exactly for a payload without a handler) and 400 (exactly for unknown arguments) |
| `LocalCalls.DemoToolEchoesValue` | agent-service/tests/test_app.py:198-211 | calling the demo tool with any integer `value` succeeds, with text that ends in that integer and reads back as it, and empty metadata |
| `LocalCalls.DemoToolDefault` | agent-service/tests/test_app.py:213-224 | calling the demo tool without arguments succeeds with the text for 10 |
| `LocalCalls.DemoToolRejectsUnknownArgument` | agent-service/tests/test_app.py:226-236 | calling the demo tool with any keyword other than `value` is a 400 naming the tool |
| `McpCalls.CallMcpTool` | agent-service/app.py:174-191 | 503 without an initialized client; 404 for a name without a function or entrypoint; success exactly when the entrypoint returns, with its result normalized and tagged "mcp"; every failure is an HTTP error whose status is 503, 404 or 500 or was raised by the tool itself |
| `McpCalls.ToolExceptionsClassified` | agent-service/app.py:183-189 | an HTTP error raised by the tool is passed through with its status and detail; any other exception becomes a 500 whose detail names the tool and the message |
| `Service.RefreshStep` | agent-service/app.py:106-128 | every refresh stamps the time, leaves the local descriptors at the head of the cache, and any client it returns is the one it stores |
| `Service.RefreshOnConnect` | agent-service/app.py:115-120 | after a successful connect the cache is the local descriptors followed by one descriptor per MCP function, in order; the time is stamped and the client is stored and returned |
| `Service.RefreshOnFailure` | agent-service/app.py:121-128 | after a failed connect or a failed validation the cache holds the local descriptors only, with no earlier MCP descriptors; the time is stamped; nothing is returned; the client is dropped when forced and kept otherwise |
| `Service.RefreshSucceedsIff` | agent-service/app.py:115-128 | a refresh returns a client exactly when connect returned and every function validated |
| `Service.RefreshConsistent` | agent-service/app.py:117-127 | after any refresh the cache starts with the local descriptors, everything after them is tagged "mcp", and every descriptor has a schema |
| `Service.ReconnectStep` | agent-service/app.py:131-140 | reconnecting either leaves the state exactly as it was or stamps the current time |
| `Service.ReconnectWithoutClient` | agent-service/app.py:132-133 | with no client, reconnecting is a forced refresh |
| `Service.ReconnectKeepsLiveClient` | agent-service/app.py:134-137 | an initialized client that answers alive is returned, and the state is unchanged |
| `Service.ReconnectOtherwiseRefreshes` | agent-service/app.py:134-140 | a client that is not initialized, not alive, or whose liveness check raises leads to a forced refresh |
| `Service.ListStep` | agent-service/app.py:216-222 | a listing either changes nothing or stamps the current time |
| `Service.ListForced` | agent-service/app.py:218-219 | `force=true` always performs a forced refresh |
| `Service.ListCacheHit` | agent-service/app.py:220-222 | a non-forced listing of a non-empty cache at most 60 seconds old changes nothing, whatever the gateway would answer |
| `Service.ListStaleRefreshes` | agent-service/app.py:220-221 | a stale, non-forced listing whose client is missing, not initialized, not alive or whose liveness check raised performs exactly a forced refresh |
| `Service.ListStaleWithLiveClient` | agent-service/app.py:220-221 | a stale, non-forced listing with an initialized, live client returns the old cache and timestamp without refreshing |
| `Service.StalenessIsStrict` | agent-service/app.py:220 | a cache exactly 60 seconds old is fresh and one 61 seconds old is stale |
| `Service.NoRefreshWithinWindow` | agent-service/app.py:216-222 | with the service's registry, a non-forced listing within 60 seconds of any refresh, successful or not, leaves the state unchanged |
| `Service.ListConsistent` | agent-service/app.py:216-222 | every listing keeps the cache invariant and returns descriptors that start with the local ones |
| `Service.CallStep` | agent-service/app.py:225-231 | a successful call's response carries the requested name |
| `Service.LocalToolsShadowMcp` | agent-service/app.py:227-230 | a name the local registry answers never reaches the MCP client: the result is the local one and the state is unchanged |
| `Service.OtherNamesGoToMcp` | agent-service/app.py:231 | any other name is served by the client that reconnection yields, with reconnection's effect on the state |
| `Service.CallErrorClassification` | agent-service/app.py:156-191 | every HTTP error from a call has status 400, 404, 500 or 503, or else the name has no local answer and the error is exactly the HTTP error raised for these arguments by the entrypoint of the client that reconnection returned |
| `Service.CallConsistent` | agent-service/app.py:225-231 | a call keeps the cache invariant |
| `Service.ToolService.constructor` | agent-service/app.py:76-79 | the service starts with no client, an empty cache, timestamp 0 and the demo registry |
| `Service.ToolService.EnsureToolkit` | agent-service/app.py:106-128 | assigning the globals and extending the cache in place leaves exactly the state and return value of `RefreshStep`, and keeps the cache invariant |
| `Service.ToolService.ExtendWithFunctions` | agent-service/app.py:118 | appending one descriptor per MCP function succeeds exactly when every function validates, and then extends the cache by those descriptors in order; the client and the timestamp are untouched |
| `Service.ToolService.EnsureConnectedIfStale` | agent-service/app.py:131-140 | leaves exactly the state and client of `ReconnectStep` on the old state, and keeps the cache invariant |
| `Service.ToolService.ListTools` | agent-service/app.py:216-222 | leaves the state of `ListStep` and returns the cache and its timestamp, which always start with the local descriptors |
| `Service.ToolService.CallTool` | agent-service/app.py:225-231 | leaves the state and returns the result of `CallStep`, and keeps the cache invariant |

## Left out

- The web layer is not modelled: FastAPI routing, CORS middleware, the `/health` endpoint, and the startup and shutdown hooks. Startup is a forced `EnsureToolkit`.
- Pydantic request validation is not modelled. Its 422 answers to malformed bodies come from the library, not from this code.
- `asyncio.Lock` and `await` are not modelled. Each operation is one atomic step. The lock serialises refreshes but does not merge concurrent ones, so there is no request coalescing to model.
- The MCP library's own behaviour is not modelled: `connect`, `is_alive`, `close`, `to_dict` and entrypoints are outcomes handed in. An entrypoint's answer depends only on its arguments within one client state.
- The fresh client that `_ensure_toolkit` creates when none exists has no separate step. The connect outcome reports the client's state afterwards, whichever client it was.
- Environment parsing (gateway URL, transport, timeout) and logging are not modelled. Neither affects the cache or dispatch decisions.
- Time is an integer, not a float, and is read once per operation. The source reads the clock separately for the staleness test and for the new timestamp.
- Floating-point JSON numbers are not represented.
- Media objects are opaque. An absent media list and an empty one are the same, because the code only tests each list for being non-empty.
- Registry payload keys whose value is `None` are treated as absent keys. The only place this matters is the emptiness test in `_call_local_tool`.
- `LocalCalls.PyInt`: for strings it accepts only an optional minus sign followed by ASCII digits. Python's `int` also accepts a leading plus sign, surrounding whitespace, underscores between digits and non-ASCII digits.
- `LocalCalls.PyInt`: Python's limit on integer string conversion (by default a string of more than 4300 digits makes `int()` raise ValueError) is not modelled. For such a `value` the service answers with an unhandled 500, while the model returns the integer.
- `Dicts.Get`: dictionaries are entry sequences that may repeat a key, which a Python dictionary cannot. Registries and MCP function dictionaries are not required to have distinct keys; with repeated keys the model would list a descriptor per entry and `get` returns the first one. `Dicts.GetDistinct` states `get` for the distinct case.
- `LocalCalls.BindGenerateNumber`: the TypeError text is fixed and does not name the offending keyword, as Python's message does.
- Exceptions that escape `call_tool` are `Unhandled` failures. Examples are a `value` that `int()` rejects while the handler is awaited. The framework answers these with a generic 500, which is not modelled.
