# MCP bridge and control plane — a Dafny model

The system connects a Model Context Protocol (MCP) client to many MCP
servers through two programs:

- The **bridge** reads JSON-RPC 2.0 messages, one per line, from stdin.
  - It validates each line as an MCP envelope and classifies it as a
    notification, a request or a response.
  - It forwards requests over HTTP to the control plane and writes the
    answers to stdout.
  - It correlates responses with pending requests.
  - It answers malformed lines with the JSON-RPC error codes -32700
    (parse error) and -32600 (invalid request).
- The **control plane** keeps a pool of MCP server subprocesses.
  - It starts, monitors, restarts and stops them.
  - It writes numbered JSON-RPC requests to them and correlates their
    replies.
  - It discovers the tools they offer into a registry that maps each tool
    name to its owner.
  - It serves authenticated HTTP endpoints (`/mcp/initialize`,
    `/mcp/tools`, `/mcp/tools/call`, `/mcp/resources`, `/mcp/prompts`)
    behind a bearer-token gate.

Its configuration is validated field by field.

The model is organised by source file:

| file | module | models |
|---|---|---|
| `json.dfy` | `Json` | JSON values, Python truthiness, the `str()` of ids, decimal text of integers |
| `config.dfy` | `Config` | the configuration records, their field validators and defaults, the lookups |
| `registry.dfy` | `Registry` | pure parts of the pool: status values, tool-name extraction, the registry and list aggregation, the restart back-off |
| `pool.dfy` | `Pool` | the pool as a class (`ClientPool`) whose methods update the servers table, the registry and the requests written |
| `auth.dfy` | `Auth` | the token service as a class (`AuthService`) |
| `bridge.dfy` | `Bridge` | message validation, classification, routing, error replies, wire form, and the bridge's state as a value with one function per step |
| `bridge_client.dfy` | `BridgeClient` | the bridge object (`McpBridgeClient`); each method is proved to follow the step function of `Bridge` |
| `control_plane.dfy` | `ControlPlane` | the authentication dependency and the five MCP endpoints |

The outside world enters the model as parameters:

- what spawning a process produced (`SpawnOutcome`);
- what became of a request written to a subprocess: its reply, a timeout or a write error (`ReplyEvent`);
- the control plane's HTTP answer to the bridge (`Result<Message, string>`);
- how writing a line to stdout ended (`WriteOutcome`);
- a shutdown signal, either between two reads (`Event.Signal`) or while the loop is blocked in a read, which still returns its line (`Event.Interrupted`);
- `json.loads`, which is the function parameter `parse`.

JSON documents are the abstract `Json` datatype; the model does not serialise them to text.

Where the code and its documentation disagree, the model follows the code:

- Tool registration is last-wins: a later server that lists the same tool name takes it over.
- Restart delays are 2, 4, 8 and 16 seconds, and at most four restarts happen.
- There is no separate "fatal" status. A server that gives up stays FAILED.
- The initialize result announces protocol version `2025-06-18`.

Behaviours of the code that the model states as lemmas:

- The list endpoints echo `request_id` from the query string, so an integer request id comes back to the client as a string (`ControlPlane.ListAnswerIdIsText`).
- A -32700 or -32600 reply has no `id` member at all, because the `None` id is dropped when the message is dumped (`Bridge.BadLineReply`).
- A tool whose result is `null` produces a reply with neither `result` nor `error` (`ControlPlane.NullToolResultReachesClientBare`).
- The bridge never adds to its `pending_requests` table, so no response is ever correlated from a fresh start. The lemmas hold for any starting table.

## Model

| member | source | states |
|---|---|---|
| Json.NatToDecimal | control_plane/src/mcp_client_pool.py:236-237 | the request id text is a non-empty string of decimal digits, one digit exactly below ten |
| Json.DecimalRoundTrip | control_plane/src/mcp_client_pool.py:236-237 | reading back the decimal text of a counter value gives that value |
| Json.DecimalInjective | control_plane/src/mcp_client_pool.py:236-237 | distinct counter values give distinct request ids |
| Json.CorrelationKey | control_plane/src/mcp_client_pool.py:219-220 | a reply id yields a lookup key only when it is truthy; for a string or integer id, exactly when it is truthy |
| Json.Get | control_plane/src/mcp_client_pool.py:361 | `dict.get`: the stored value when the key is present, the default otherwise |
| Config.CheckServerType | control_plane/src/config.py:30-34 | a server type is accepted iff it is python, npx or uv, and is kept unchanged |
| Config.CheckCommand | control_plane/src/config.py:36-40 | a command is accepted iff it is non-empty |
| Config.CheckPort | control_plane/src/config.py:51-55 | a port is accepted iff 1 <= port <= 65535 |
| Config.Upper | control_plane/src/config.py:59-61 | upper-casing keeps the length and maps every character |
| Config.CheckLogLevel | control_plane/src/config.py:57-61 | a level is accepted iff its upper-case form is one of the five levels, and is stored upper-cased |
| Config.UpperIdempotent | control_plane/src/config.py:59-61 | upper-casing twice is upper-casing once |
| Config.LogLevelCaseInsensitive | control_plane/src/config.py:57-61 | two spellings that differ only in case validate to the same result |
| Config.LogLevelNormalisationIdempotent | control_plane/src/config.py:57-61 | validating a stored level again leaves it unchanged |
| Config.CheckAuthTokens | control_plane/src/config.py:70-74 | a token list is accepted iff it is non-empty |
| Config.MakeMcpServerConfig | control_plane/src/config.py:17-40 | a server record is valid iff its type and command are; invalid records report one or two errors; id, name, type, command and cwd are kept; defaults are args [], env {}, timeout 30, restart and enabled true |
| Config.MakeServerConfig | control_plane/src/config.py:43-61 | the server section is valid iff port and log level are; a given log level is stored upper-cased; defaults are host 0.0.0.0, port 8443, one worker, INFO and no CORS origins |
| Config.DefaultServerConfig | control_plane/src/config.py:45-49 | the default server section is host 0.0.0.0, port 8443, one worker, INFO and no CORS origins, which is what validating an empty section gives |
| Config.MakeMcpServerConfigs | control_plane/src/config.py:68 | a server list is valid iff every record is, and then it is validated element by element |
| Config.MakeControlPlaneConfig | control_plane/src/config.py:64-74 | valid iff the server section, the token list (non-empty) and the server list are each valid; a failure reports at least one message; present sections are their validated values, absent ones their defaults, and the tokens are kept |
| Config.EnabledServers | control_plane/src/config.py:153-155 | exactly the enabled servers are kept |
| Config.EnabledServersAppend | control_plane/src/config.py:153-155 | filtering distributes over concatenation, so order is kept |
| Config.EnabledServersIdempotent | control_plane/src/config.py:153-155 | filtering twice is filtering once |
| Config.ServerById | control_plane/src/config.py:157-162 | None iff no server has the id; otherwise the first server with that id |
| Registry.StatusValue | control_plane/src/mcp_client_pool.py:22-27 | each status has one of the four lower-case values |
| Registry.StatusValueInjective | control_plane/src/mcp_client_pool.py:22-27 | different statuses report different values |
| Registry.ListedItems | control_plane/src/mcp_client_pool.py:281-282 | entries are taken only from a reply whose `result` object has a list under the key |
| Registry.NameOf | control_plane/src/mcp_client_pool.py:284-285 | a tool contributes a name only when its `name` is a non-empty string |
| Registry.ToolNames | control_plane/src/mcp_client_pool.py:283-289 | there are at most as many names as entries (where extraction stops is stated by `ToolNamesStop`) |
| Registry.ToolNamesListed | control_plane/src/mcp_client_pool.py:283-286 | every extracted name is non-empty and is the `name` of one of the entries |
| Registry.ToolNamesSnoc | control_plane/src/mcp_client_pool.py:283-286 | an object entry adds its own name, if any, after the earlier names |
| Registry.RegisterStep | control_plane/src/mcp_client_pool.py:283-286 | registering one more entry assigns at most its one name to the server |
| Registry.ToolNamesStop | control_plane/src/mcp_client_pool.py:283-289 | an entry the loop raises on (not an object, or an unhashable truthy name) ends the server's registration: nothing after it is registered |
| Registry.Register | control_plane/src/mcp_client_pool.py:286 | registered names map to the server; other names keep their owner |
| Registry.RegisterSnoc | control_plane/src/mcp_client_pool.py:286 | registering one more name is one dictionary store |
| Registry.BuildRegistryPrefix | control_plane/src/mcp_client_pool.py:276-286 | the registry after one more server is the previous registry plus that server's names |
| Registry.RegisteredIffListed | control_plane/src/mcp_client_pool.py:274-286 | a name is registered iff some server listed it |
| Registry.LastListerOwns | control_plane/src/mcp_client_pool.py:276-286 | the last server in order that lists a name owns it |
| Registry.OwnerListedName | control_plane/src/mcp_client_pool.py:276-286 | a registered name's owner is one of the servers and listed that name |
| Registry.Collect | control_plane/src/mcp_client_pool.py:294-309 | every server's entries fit inside the aggregate |
| Registry.CollectPrefix | control_plane/src/mcp_client_pool.py:298-304 | one more server extends the aggregate by exactly its entries |
| Registry.CollectedIffListed | control_plane/src/mcp_client_pool.py:294-309 | an entry is in the aggregate iff some server listed it |
| Registry.Pow2 | control_plane/src/mcp_client_pool.py:179 | powers of two are positive |
| Registry.Pow2Monotonic | control_plane/src/mcp_client_pool.py:179 | more failures mean a strictly longer back-off |
| Registry.RestartDelay | control_plane/src/mcp_client_pool.py:179 | the delay is 2^failures capped at 30 seconds |
| Registry.RestartDelays | control_plane/src/mcp_client_pool.py:177-179 | when a restart is allowed the cap is never reached and the delay is 2, 4, 8 or 16 |
| Pool.NewInstance | control_plane/src/mcp_client_pool.py:30-43 | a new instance is STOPPED with no process, no failures, no requests and nothing pending |
| Pool.RequestBody | control_plane/src/mcp_client_pool.py:240-246 | a request carries jsonrpc 2.0, the id and the method; `params` only when non-empty |
| Pool.IssueThenSettle | control_plane/src/mcp_client_pool.py:236-269 | issuing an id and settling it leaves the pending table as it was |
| Pool.NextIdFresh | control_plane/src/mcp_client_pool.py:236-250 | the next request id is never already pending |
| Pool.InstancesKeys | control_plane/src/mcp_client_pool.py:69-71 | after creation the servers are the earlier ones plus the enabled configurations' ids |
| Pool.InstancesLastWins | control_plane/src/mcp_client_pool.py:69-71 | the last enabled configuration with an id decides that id's instance |
| Pool.InstancesKeepOthers | control_plane/src/mcp_client_pool.py:69-71 | ids that no enabled configuration names are untouched |
| Pool.Owner | control_plane/src/mcp_client_pool.py:347-349 | a tool routes to its registered owner only when the name is a string registered to a non-empty id |
| Pool.EnabledIds | control_plane/src/mcp_client_pool.py:69-71 | exactly the ids of the enabled configurations |
| Pool.ClientPool.constructor | control_plane/src/mcp_client_pool.py:49-61 | an empty pool: no servers, empty registry, not running |
| Pool.ClientPool.GetStatus | control_plane/src/mcp_client_pool.py:363-367 | one entry per server, holding its status value |
| Pool.ClientPool.CreateInstances | control_plane/src/mcp_client_pool.py:68-71 | the servers table becomes `Instances` of the configurations, with insertion order kept |
| Pool.ClientPool.StartServer | control_plane/src/mcp_client_pool.py:104-144 | RUNNING with the new process iff spawning succeeded; otherwise FAILED with the error, one more failure and the old process kept |
| Pool.ClientPool.StopServer | control_plane/src/mcp_client_pool.py:146-162 | a server with a process becomes STOPPED without one; any other server is unchanged |
| Pool.ClientPool.MonitorStep | control_plane/src/mcp_client_pool.py:168-183 | a dead process makes the server FAILED with one more failure; it restarts after 2^failures seconds only if restart is configured and fewer than five failures are counted, else the loop ends |
| Pool.ClientPool.MonitorTick | control_plane/src/mcp_client_pool.py:168-185 | the server table afterwards is the old one with this server replaced by `MonitorPass` of it (marked exited first if its process died before the pass); failures never decrease; a restart's delay is 2^failures and one of 2, 4, 8, 16 |
| Pool.MonitorPass | control_plane/src/mcp_client_pool.py:168-183 | one pass keeps the configuration and the pending table, adds at most two failures, and changes the instance exactly when the pool is running and its process has died |
| Pool.Exit | control_plane/src/mcp_client_pool.py:168-170 | a process that has exited is seen as dead by the next pass; nothing but the process changes |
| Pool.ClientPool.MonitorServer | control_plane/src/mcp_client_pool.py:164-185 | at most four restarts, with delays among 2, 4, 8, 16 seconds and strictly growing |
| Pool.ClientPool.BeginRequest | control_plane/src/mcp_client_pool.py:231-250 | a server that is absent, not RUNNING or has no process is refused with nothing changed; otherwise the next id is issued and recorded as pending |
| Pool.ClientPool.HandleServerResponse | control_plane/src/mcp_client_pool.py:215-227 | a reply is delivered iff its truthy id is pending, and only then is the entry popped |
| Pool.ClientPool.Await | control_plane/src/mcp_client_pool.py:252-269 | the request is written and counted unless the write fails; the pending entry is gone whatever the outcome; the reply returned carries the id |
| Pool.ClientPool.SendRequest | control_plane/src/mcp_client_pool.py:229-269 | the whole `_send_request`: refusal, or counter +1, write, count and outcome; statuses and processes are unchanged |
| Pool.SentBy | control_plane/src/mcp_client_pool.py:229-250 | at most one request is written, exactly when the server is RUNNING with a process and the write does not fail; it goes to that server with the next id, the method and the params |
| Pool.PolledShape | control_plane/src/mcp_client_pool.py:294-309 | a pass keeps every server's status, process, configuration, pending table and failures; its counter rises by one exactly when it could be sent to |
| Pool.RequestsOnlyToSendable | control_plane/src/mcp_client_pool.py:294-309 | a pass writes at most one request per server, only to servers of the pass that could be sent to, each with the pass's method |
| Pool.ClientPool.RegisterTools | control_plane/src/mcp_client_pool.py:281-286 | the registry gains the reply's named tools for the server |
| Pool.ClientPool.DiscoverFrom | control_plane/src/mcp_client_pool.py:277-290 | one server's turn registers what it listed, if it is RUNNING and replied; the table becomes `AfterPoll` of it and `sent` grows by exactly `SentBy` that server |
| Pool.ClientPool.DiscoverTools | control_plane/src/mcp_client_pool.py:271-292 | the registry is rebuilt from scratch from every RUNNING server's listing, in server order; the table becomes `Polled` and `sent` grows by exactly `Requests` over the server order |
| Pool.ClientPool.ListFrom | control_plane/src/mcp_client_pool.py:299-307 | one server's entries, or nothing if it is not RUNNING or its request fails; the table becomes `AfterPoll` of it and `sent` grows by exactly `SentBy` that server |
| Pool.ClientPool.ListAll | control_plane/src/mcp_client_pool.py:294-343 | the concatenation, in server order, of every server's listed entries of the kind; the table becomes `Polled` and `sent` grows by exactly `Requests` of the kind's method over the server order |
| Pool.ClientPool.CallTool | control_plane/src/mcp_client_pool.py:345-361 | unknown tool fails with nothing changed or sent; otherwise `tools/call` goes to the owner (table `AfterCall`, written requests `CallSent`), a refusal leaves the table as it was, an `error` is raised, and the `result` (or `{}`) is returned |
| Pool.ClientPool.StartAll | control_plane/src/mcp_client_pool.py:73-80 | the servers table becomes `Started`: each server as `_start_server` leaves it given its spawn outcome; RUNNING iff the spawn succeeded |
| Pool.Started | control_plane/src/mcp_client_pool.py:73-80 | starting every server keeps the same ids |
| Pool.ClientPool.Start | control_plane/src/mcp_client_pool.py:63-86 | running; one instance per enabled id and the earlier order kept as a prefix; the table is `Polled` of the started servers and `sent` grows by their discovery `Requests`; a failed spawn leaves its server FAILED with that error; the registry is `BuildRegistry` over the started servers in order, so (with `RegisteredIffListed` and `LastListerOwns`) a name is registered iff a spawned server that replied listed it, to the last such server |
| Pool.ClientPool.Stop | control_plane/src/mcp_client_pool.py:88-102 | not running, and every server with a process is stopped |
| Auth.AuthService.constructor | control_plane/src/auth.py:19-29 | the valid tokens are the configured ones without duplicates; no usage recorded |
| Auth.AuthService.UsageCount | control_plane/src/auth.py:47-50 | a token has a non-zero count iff it has ever been validated |
| Auth.AuthService.ValidateToken | control_plane/src/auth.py:31-53 | accepted iff non-empty and valid; acceptance raises that token's count by one; rejection changes nothing |
| Auth.AuthService.TokenStatsNow | control_plane/src/auth.py:55-61 | the totals are the valid tokens and the distinct tokens ever validated; the usage map holds each validated token's count |
| Auth.AuthService.AddToken | control_plane/src/auth.py:68-71 | the token becomes valid; re-adding changes nothing |
| Auth.AuthService.RemoveToken | control_plane/src/auth.py:73-79 | returns whether the token was valid; afterwards it is not, and the others are untouched |
| Bridge.Validate | bridge/src/bridge_client.py:47-54 | an object validates iff each known member has an accepted kind; `result` is None iff it is absent or null |
| Bridge.ToWire | bridge/src/bridge_client.py:347-348 | the written object has `jsonrpc` and exactly the members that are not None |
| Bridge.WireRoundTrip | bridge/src/bridge_client.py:347-348 | validating what is written gives back the message |
| Bridge.ValidatedDumpKeys | bridge/src/bridge_client.py:47-54 | dumping a validated envelope keeps exactly its known, non-null members |
| Bridge.Decode | bridge/src/bridge_client.py:185-188 | a non-JSON line is a parse failure; an envelope is a JSON object that validates |
| Bridge.ForwardBody | bridge/src/bridge_client.py:310-314 | the POST body has method, params (or `{}`) and id |
| Bridge.Route | bridge/src/bridge_client.py:254-264 | a request is forwarded iff its method is one of the five; POSTs carry the body; GETs only for the list methods |
| Bridge.TrimStart | bridge/src/bridge_client.py:171 | only leading whitespace is removed |
| Bridge.TrimEnd | bridge/src/bridge_client.py:171 | only trailing whitespace is removed |
| Bridge.Strip | bridge/src/bridge_client.py:171 | the stripped line neither starts nor ends with whitespace |
| Bridge.StripSlice | bridge/src/bridge_client.py:171 | the stripped line is a slice of the line with only whitespace around it |
| Bridge.StripBlank | bridge/src/bridge_client.py:171-173 | a line strips to nothing iff it is all whitespace |
| Bridge.StripIdempotent | bridge/src/bridge_client.py:171 | stripping twice is stripping once |
| Bridge.NotificationSilent | bridge/src/bridge_client.py:194-201 | a notification is counted and nothing else happens |
| Bridge.RequestAnsweredOnce | bridge/src/bridge_client.py:204 | a request to a running bridge with a session gets exactly one reply and at most one HTTP request |
| Bridge.ForwardReplyId | bridge/src/bridge_client.py:248-283 | an unrouted method gets -32601 and a failed forward gets -32603, both with the request's id; a successful forward passes the control plane's answer on unchanged |
| Bridge.RequestWithoutSession | bridge/src/bridge_client.py:223-238 | without a session a request gets -32603 with its id while running, and nothing once stopped |
| Bridge.BadLineReply | bridge/src/bridge_client.py:211-218 | an unparsable or invalid line gets -32700 or -32600 with no `id` member, is not counted, and is ignored once stopped |
| Bridge.BrokenPipeStops | bridge/src/bridge_client.py:352-355 | a broken pipe stops the bridge and writes nothing |
| Bridge.ResponsePoppedOnce | bridge/src/bridge_client.py:240-246 | a pending truthy id is popped and handed over once; handling the response again changes nothing |
| Bridge.FalsyIdIgnored | bridge/src/bridge_client.py:242 | a response with id 0 or "" is never correlated |
| Bridge.NothingAfterStop | bridge/src/bridge_client.py:156-175 | nothing is read after end of input, after a signal between reads, or after the line whose read a signal interrupted |
| Bridge.InterruptedReadProcessed | bridge/src/bridge_client.py:156-175 | a line whose read a signal interrupts is still stripped and processed, with `running` already false, and the loop then ends |
| Bridge.InterruptedRequestAnswered | bridge/src/bridge_client.py:160-175 | in particular, an interrupted request is still forwarded and answered when the session exists, and the bridge ends stopped |
| Bridge.BlankLinesIgnored | bridge/src/bridge_client.py:171-173 | whitespace-only lines are skipped as if they had not been read |
| Bridge.OnMessageStep | bridge/src/bridge_client.py:183-221 | one message writes at most one reply, makes at most one HTTP request, pops at most one key, is counted at most once, and never sets `running` back to true |
| Bridge.LoopCorrelatesOnce | bridge/src/bridge_client.py:156-181 | over a run, the pending table only shrinks, and it loses exactly as many keys as responses are handed over |
| Bridge.LoopAppendsOnly | bridge/src/bridge_client.py:156-181 | a run only appends, with at most one reply, one HTTP request and one counted message per event |
| BridgeClient.McpBridgeClient.constructor | bridge/src/bridge_client.py:63-76 | a new bridge: not running, no session, nothing pending, nothing counted |
| BridgeClient.McpBridgeClient.SignalHandler | bridge/src/bridge_client.py:132-135 | a signal only clears `running` |
| BridgeClient.McpBridgeClient.InitHttpSession | bridge/src/bridge_client.py:137-153 | the session exists afterwards |
| BridgeClient.McpBridgeClient.SendResponse | bridge/src/bridge_client.py:344-358 | the object follows `Send`: written on success, stopped on a broken pipe, unchanged otherwise |
| BridgeClient.McpBridgeClient.SendErrorResponse | bridge/src/bridge_client.py:360-371 | sends an error reply carrying the id, code and message |
| BridgeClient.McpBridgeClient.HandleRequest | bridge/src/bridge_client.py:223-238 | the object follows `OnRequest` |
| BridgeClient.McpBridgeClient.HandleResponse | bridge/src/bridge_client.py:240-246 | the object follows `OnResponse` |
| BridgeClient.McpBridgeClient.ProcessMessage | bridge/src/bridge_client.py:183-221 | the object follows `OnMessage` |
| BridgeClient.McpBridgeClient.ProcessEnvelope | bridge/src/bridge_client.py:190-209 | the object follows `OnEnvelope`: counted, then dispatched |
| BridgeClient.McpBridgeClient.MessageLoop | bridge/src/bridge_client.py:156-181 | the object ends in the state `Loop` gives, so the loop lemmas hold of it |
| BridgeClient.McpBridgeClient.Start | bridge/src/bridge_client.py:109-124 | running with a session, then the message loop |
| ControlPlane.ListResponse | control_plane/src/control_plane_server.py:249-262 | the request id is echoed; exactly one of result and error; entries go under the kind's key; a failure is -32603 "Internal error: …" |
| ControlPlane.ToolCallResponse | control_plane/src/control_plane_server.py:285-298 | an object result is returned as is; a null result leaves result and error both unset; a pool failure or a non-object result is -32603 |
| ControlPlane.ResponseJson | control_plane/src/control_plane_server.py:96-101 | the response object always has all four members |
| ControlPlane.ListAnswerIdIsText | control_plane/src/control_plane_server.py:238-256 | an integer-id `tools/list` is routed with the id's text and answered with a string id that differs from the request's id |
| ControlPlane.NullToolResultReachesClientBare | control_plane/src/control_plane_server.py:289-292 | a null tool result reaches the client as an object with only jsonrpc and id |
| ControlPlane.Gate | control_plane/src/control_plane_server.py:171-192 | accepted iff the credential is non-empty and a valid token of a set token service; a refusal is 401 with the Bearer challenge, "Missing…" exactly for a missing or empty credential |
| ControlPlane.GetCurrentUser | control_plane/src/control_plane_server.py:171-192 | the outcome is `Gate` of the credential and the valid tokens; `TokenUse`: an accepted token's count rises by one; the valid tokens and every other count are unchanged; a refusal changes nothing |
| ControlPlane.McpInitialize | control_plane/src/control_plane_server.py:212-235 | the gate's refusal with the token service unchanged, or else the fixed capabilities with the request's id and only the accepted token's usage count raised by one (`TokenUse`) |
| ControlPlane.ListEndpoint | control_plane/src/control_plane_server.py:238-262 | the gate's refusal with the pool and the token service untouched; else 500 iff the pool is not set; else the pool's aggregate as the response, the pool left as one `get_all_*` pass leaves it (`PoolAfterListing`: table `Polled`, `sent` grown by `Requests`, registry, order and running unchanged); the token service as `TokenUse` says |
| ControlPlane.McpToolsList | control_plane/src/control_plane_server.py:238-262 | `ListEndpoint`'s outcome for tools: the gate's refusal with the pool and token service untouched, 500 iff the pool is not set, otherwise the `Collect` aggregate with the pool as `PoolAfterListing` leaves it; the accepted token's count alone rises by one |
| ControlPlane.McpResourcesList | control_plane/src/control_plane_server.py:301-325 | `ListEndpoint`'s outcome for resources: the gate's refusal with the pool and token service untouched, 500 iff the pool is not set, otherwise the `Collect` aggregate with the pool as `PoolAfterListing` leaves it; the accepted token's count alone rises by one |
| ControlPlane.McpPromptsList | control_plane/src/control_plane_server.py:328-352 | `ListEndpoint`'s outcome for prompts: the gate's refusal with the pool and token service untouched, 500 iff the pool is not set, otherwise the `Collect` aggregate with the pool as `PoolAfterListing` leaves it; the accepted token's count alone rises by one |
| ControlPlane.McpToolCall | control_plane/src/control_plane_server.py:265-298 | the gate's refusal with the pool and token service untouched; else 500 iff the pool is not set; else a falsy name is -32602 with the pool untouched; else the response is the pool's `call_tool` outcome and the pool is as `PoolAfterCall` says (table `AfterCall`, `sent` grown by `CallSent`, registry, order and running unchanged); the accepted token's count alone rises by one |

## Left out

The following parts of the system are not modelled:

- Logging (structlog), timestamps (`start_time`, `last_used`), `datetime` in the stats, and the `errors` stat counter. None of them affects behaviour.
- `BridgeConfig` loading from the environment, `ControlPlaneConfig.load`, `_load_from_env`, `save` and `main`. These are file and environment I/O. The base URL is a constructor parameter.
- `AuthService.generate_token`. It draws randomness.
- The `/health` endpoint and `lifespan`. They are process wiring.
- `_handle_server_output`. Its reading is I/O; its effect is `HandleServerResponse`, which the reply event of each request drives.
- Concurrency. `asyncio.gather`, the background tasks and the 30-second wait are sequential steps whose outcomes are parameters.
  - Each `_start_server` spawns another monitor task. The model runs one monitor per server.
- Process termination and killing, environment merging and the working directory, which are OS calls.
- Bytes and the encoding of the JSON text. JSON is an abstract value.
- Unicode whitespace. `Bridge.IsSpace` covers ASCII whitespace plus characters 28-31, 133 and 160; the other Unicode space characters that `str.strip` removes are not modelled.
- Pydantic coercions beyond those the model states:
  - only strings, integers, booleans and null are accepted as ids;
  - float ids are not modelled;
  - the 422 that FastAPI returns for a POST body whose `id` is not a string is not modelled;
- Config.Upper: only ASCII letters are upper-cased, whereas `str.upper` also changes non-ASCII letters.
- Config.CheckLogLevel: because it goes through `Config.Upper`, it refuses levels that are valid only after non-ASCII upper-casing. For example, the source accepts "ınfo" (with a dotless ı) and stores "INFO", but the model rejects it.
- URL percent-encoding of the `request_id` query. The id's text is put in the query as it is.
- The `extend` of a non-list `tools`, `resources` or `prompts` value. `Registry.ListedItems` treats such a value as no entries.
- Unhashable or non-string tool names in `call_tool`. They are treated as not registered.
- Registry.NameOf: a truthy `name` that is a number or a boolean is registered by the source under that non-string key; the model skips it, because its registry maps strings, and Python's key equality of `1` and `True` is not modelled either. A truthy list or object name is modelled: it stops that server's registration.
- Json.Show: lists and objects are shown as `[...]` and `{...}` rather than as Python's `str()` of them, so messages that embed one lose its contents. This affects the text of "Tool … not found" for such a name and of "Tool execution failed: …" for an error object.
- ControlPlane.ToolCallResponse: the -32603 message for a tool's `error` is "Tool execution failed: Tool execution failed: " followed by `Json.Show` of the error, so an error object appears as `{...}` instead of its `str()`.
- ControlPlane.ToolCallResponse: for a non-object tool result, only the fixed part of pydantic's validation message is modelled (`ResultNotADict`).
- Pool.ClientPool.CallTool: the reply's own `id` is replaced by the request's id text (`SendOutcome`). In the source the reply keeps the id it came with, whose `str()` equals that text.
- Auth.AuthService.ValidateToken: usage is keyed by the token itself rather than by the first 16 hex digits of its SHA-256 hash, so collisions of that hash prefix are not modelled.
- Pool.ClientPool.MonitorServer: it states the bound on restarts and delays, not the server table after each tick. That per-tick state is stated by `MonitorStep`.
- ControlPlane.ListEndpoint and the three list endpoints: `get_all_*` catches every per-server error, so the model never takes their failure branch; `ListResponse` states it.
- BridgeClient.McpBridgeClient.InitHttpSession: the session's headers, the bearer token and the timeout are not modelled. A failing session creation is not modelled either.
