/**
 * The control plane's HTTP endpoints: the two-stage bearer-token gate, and
 * how each MCP endpoint turns its request and the pool's outcome into a
 * JSON-RPC response. The pool and the token service are the objects of
 * modules Pool and Auth; `None` stands for the global that is not set.
 */
module ControlPlane {
  import opened Wrappers
  import opened Json
  import opened Auth
  import opened Registry
  import opened Pool
  import Bridge

  /** `MCPResponse`; the id is the text the request carried. */
  datatype McpResponse = McpResponse(
    jsonrpc: string,
    id: Option<string>,
    result: Option<map<string, Json>>,
    error: Option<map<string, Json>>)

  /** An `HTTPException`: status code, detail and response headers. */
  datatype HttpError = HttpError(status: nat, detail: string, headers: map<string, string>)

  /** The request bodies of the POST endpoints, once validated. */
  datatype PostRequest = PostRequest(params: map<string, Json>, id: Option<string>)

  const InvalidParams: int := -32602

  /** A 401 with the bearer challenge of section 3 of RFC 6750. */
  function Unauthorized(detail: string): HttpError {
    HttpError(401, detail, map["WWW-Authenticate" := "Bearer"])
  }

  /** The 500 returned when the pool global is not set. */
  const PoolMissing: HttpError := HttpError(500, "MCP pool not initialized", map[])

  function ErrorResponse(id: Option<string>, code: int, text: string): McpResponse {
    McpResponse("2.0", id, None, Some(map["code" := JNum(code), "message" := JStr(text)]))
  }

  /** The fixed result of `initialize`. */
  const InitializeResult: map<string, Json> := map[
    "protocolVersion" := JStr("2025-06-18"),
    "capabilities" := JObject(map["tools" := JObject(map[]), "resources" := JObject(map[]), "prompts" := JObject(map[])]),
    "serverInfo" := JObject(map["name" := JStr("MCP Control Plane"), "version" := JStr("1.0.0")])]

  /** The response of a list endpoint, given what the pool's `get_all_*` produced. */
  function ListResponse(kind: ListKind, requestId: Option<string>, outcome: Result<seq<Json>, string>): (r: McpResponse)
    ensures r.jsonrpc == "2.0" && r.id == requestId
    ensures r.result.Some? != r.error.Some?
    ensures outcome.Success? ==> r.result == Some(map[kind.Key() := JList(outcome.value)])
    ensures outcome.Failure? ==> r.error == Some(map["code" := JNum(Bridge.InternalError), "message" := JStr("Internal error: " + outcome.error)])
  {
    match outcome
    case Success(items) => McpResponse("2.0", requestId, Some(map[kind.Key() := JList(items)]), None)
    case Failure(e) => ErrorResponse(requestId, Bridge.InternalError, "Internal error: " + e)
  }

  /**
   * The text of the validation error raised when the tool's result is not an
   * object; only its fixed part is modelled.
   */
  const ResultNotADict: string := "1 validation error for MCPResponse\nresult\n  Input should be a valid dictionary"

  /**
   * The response of `tools/call` once the pool was asked: an object result is
   * returned as it is, a `null` result leaves both `result` and `error` unset,
   * and any other result, like any pool failure, becomes -32603.
   */
  function ToolCallResponse(id: Option<string>, outcome: Result<Json, PoolError>): (r: McpResponse)
    ensures r.jsonrpc == "2.0" && r.id == id
    ensures r.result.Some? ==> r.error.None?
    ensures r.result.None? && r.error.None? <==> outcome == Success(JNull)
    ensures r.result.Some? <==> outcome.Success? && outcome.value.JObject?
    ensures r.result.Some? ==> JObject(r.result.value) == outcome.value
    ensures outcome.Failure? ==>
              r.error == Some(map["code" := JNum(Bridge.InternalError), "message" := JStr("Tool execution failed: " + ErrorText(outcome.error))])
  {
    match outcome
    case Failure(e) => ErrorResponse(id, Bridge.InternalError, "Tool execution failed: " + ErrorText(e))
    case Success(JObject(fields)) => McpResponse("2.0", id, Some(fields), None)
    case Success(JNull) => McpResponse("2.0", id, None, None)
    case Success(_) => ErrorResponse(id, Bridge.InternalError, "Tool execution failed: " + ResultNotADict)
  }

  /**
   * The JSON object sent for a response: all four members, `null` where unset
   * (the response model is serialised without dropping `None`).
   */
  function ResponseJson(r: McpResponse): (j: map<string, Json>)
    ensures j.Keys == {"jsonrpc", "id", "result", "error"}
  {
    map["jsonrpc" := JStr(r.jsonrpc),
        "id" := (if r.id.Some? then JStr(r.id.value) else JNull),
        "result" := (if r.result.Some? then JObject(r.result.value) else JNull),
        "error" := (if r.error.Some? then JObject(r.error.value) else JNull)]
  }

  /**
   * A list request the bridge forwards with an integer id gets back the id as
   * text: the bridge puts the id's text in the query string, the endpoint echoes
   * that string, and the bridge reads it back as a string id, which is not the
   * id the request carried.
   */
  lemma ListAnswerIdIsText(m: Bridge.Message, baseUrl: string, n: int, items: seq<Json>)
    requires m.id == Some(IntId(n)) && m.methodName == Some("tools/list")
    ensures Bridge.Route(m, baseUrl) == Some(Bridge.HttpGet(baseUrl + ("/mcp/tools?request_id=" + IntToDecimal(n))))
    ensures var answer := Bridge.Validate(ResponseJson(ListResponse(ToolsList, Some(IntToDecimal(n)), Success(items))));
      && answer.Some?
      && answer.value.id == Some(StrId(IntToDecimal(n)))
      && answer.value.id != m.id
      && answer.value.result == Some(JObject(map["tools" := JList(items)]))
  {
    ListQueryCarriesText(m, baseUrl, n);
    ListAnswerValidates(IntToDecimal(n), items);
  }

  /** The GET for an integer-id `tools/list` carries the id's decimal text. */
  lemma ListQueryCarriesText(m: Bridge.Message, baseUrl: string, n: int)
    requires m.id == Some(IntId(n)) && m.methodName == Some("tools/list")
    ensures Bridge.Route(m, baseUrl) == Some(Bridge.HttpGet(baseUrl + ("/mcp/tools?request_id=" + IntToDecimal(n))))
  {
    assert Bridge.QueryId(m) == IntToDecimal(n);
  }

  /** The bridge reads a successful tools listing back with the echoed text as a string id. */
  lemma ListAnswerValidates(id: string, items: seq<Json>)
    ensures var answer := Bridge.Validate(ResponseJson(ListResponse(ToolsList, Some(id), Success(items))));
      && answer.Some?
      && answer.value.id == Some(StrId(id))
      && answer.value.result == Some(JObject(map["tools" := JList(items)]))
  {
    var j := ResponseJson(ListResponse(ToolsList, Some(id), Success(items)));
    assert Get(j, "id", JNull) == JStr(id);
    assert Get(j, "error", JNull) == JNull;
    assert Get(j, "result", JNull) == JObject(map["tools" := JList(items)]);
  }

  /**
   * The tool's `null` result reaches the client as a response with neither a
   * result nor an error: the bridge reads both as `None` and drops them.
   */
  lemma NullToolResultReachesClientBare(id: string)
    ensures var answer := Bridge.Validate(ResponseJson(ToolCallResponse(Some(id), Success(JNull))));
      && answer.Some?
      && Bridge.ToWire(answer.value) == map["jsonrpc" := JStr("2.0"), "id" := JStr(id)]
  {
    var j := ResponseJson(ToolCallResponse(Some(id), Success(JNull)));
    assert Get(j, "id", JNull) == JStr(id);
    assert Get(j, "result", JNull) == JNull;
    assert Get(j, "error", JNull) == JNull;
    assert Get(j, "method", JNull) == JNull;
    assert Get(j, "params", JNull) == JNull;
  }

  /** The valid tokens of the token service, `None` while the global is not set. */
  function Tokens(auth: AuthService?): Option<set<string>>
    reads auth
  {
    if auth == null then None else Some(auth.validTokens)
  }

  /**
   * What `get_current_user` decides, given the credential and the valid tokens:
   * a missing or empty credential is refused first; a credential that is not a
   * valid token, or that arrives while the token service is not set, is refused
   * as invalid; otherwise the token is the caller's identity.
   */
  function Gate(credential: Option<string>, tokens: Option<set<string>>): (r: Result<string, HttpError>)
    ensures r.Success? <==> credential.Some? && credential.value != "" && tokens.Some? && credential.value in tokens.value
    ensures r.Success? ==> r.value == credential.value
    ensures r.Failure? ==> r.error.status == 401 && r.error.headers == map["WWW-Authenticate" := "Bearer"]
    ensures r.Failure? ==>
              (r.error.detail == "Missing authentication token" <==> credential.None? || credential.value == "")
  {
    if credential.None? || credential.value == "" then Failure(Unauthorized("Missing authentication token"))
    else if tokens.None? || credential.value !in tokens.value then Failure(Unauthorized("Invalid authentication token"))
    else Success(credential.value)
  }

  /**
   * What one request leaves of the token service: the valid tokens are as they
   * were; an accepted credential's usage count has risen by one, and no other
   * token's count has moved; a refused request changes nothing.
   */
  twostate predicate TokenUse(auth: AuthService?, credential: Option<string>, accepted: bool)
    requires old(auth != null ==> auth.Valid()) && (auth != null ==> auth.Valid())
    reads auth
  {
    auth != null ==>
      && auth.validTokens == old(auth.validTokens)
      && (accepted ==> credential.Some? && auth.UsageCount(credential.value) == old(auth.UsageCount(credential.value)) + 1)
      && (forall t :: t != credential.GetOr("") ==> auth.UsageCount(t) == old(auth.UsageCount(t)))
      && (!accepted ==> unchanged(auth))
  }

  /**
   * What a `get_all_*` pass leaves of the pool: each server polled once, the
   * requests of the pass written in server order, and the registry, the order
   * and the running flag as they were.
   */
  twostate predicate PoolAfterListing(pool: ClientPool, kind: ListKind, replies: string -> ReplyEvent)
    reads pool
  {
    && pool.servers == Polled(old(pool.servers), replies)
    && pool.sent == old(pool.sent) + Requests(old(pool.servers), old(pool.order), kind.Method(), replies)
    && pool.toolRegistry == old(pool.toolRegistry)
    && pool.order == old(pool.order)
    && pool.running == old(pool.running)
  }

  /**
   * What `call_tool` leaves of the pool: the owner's counters moved and its
   * request written when it could be sent; the registry, the order and the
   * running flag as they were.
   */
  twostate predicate PoolAfterCall(pool: ClientPool, name: Json, arguments: Json, reply: ReplyEvent)
    reads pool
  {
    && pool.servers == AfterCall(old(pool.toolRegistry), old(pool.servers), name, reply)
    && pool.sent == old(pool.sent) + CallSent(old(pool.toolRegistry), old(pool.servers), name, arguments, reply)
    && pool.toolRegistry == old(pool.toolRegistry)
    && pool.order == old(pool.order)
    && pool.running == old(pool.running)
  }

  /**
   * `get_current_user`: decides as `Gate` does; an accepted token's usage
   * count rises by one, and nothing else of the token service changes.
   */
  method GetCurrentUser(auth: AuthService?, credential: Option<string>) returns (r: Result<string, HttpError>)
    requires auth != null ==> auth.Valid()
    modifies auth
    ensures auth != null ==> auth.Valid()
    ensures r == Gate(credential, old(Tokens(auth)))
    ensures TokenUse(auth, credential, r.Success?)
  {
    if credential.None? || credential.value == "" {
      return Failure(Unauthorized("Missing authentication token"));
    }
    if auth == null {
      return Failure(Unauthorized("Invalid authentication token"));
    }
    var ok := auth.ValidateToken(credential.value);
    if !ok {
      return Failure(Unauthorized("Invalid authentication token"));
    }
    return Success(credential.value);
  }

  /** `mcp_initialize`: the gate's refusal, or the fixed capabilities with the request's id. */
  method McpInitialize(auth: AuthService?, credential: Option<string>, request: PostRequest)
    returns (r: Result<McpResponse, HttpError>)
    requires auth != null ==> auth.Valid()
    modifies auth
    ensures auth != null ==> auth.Valid()
    ensures TokenUse(auth, credential, Gate(credential, old(Tokens(auth))).Success?)
    ensures var gate := Gate(credential, old(Tokens(auth)));
      && (gate.Failure? ==> r == Failure(gate.error))
      && (gate.Success? ==> r == Success(McpResponse("2.0", request.id, Some(InitializeResult), None)))
  {
    var user := GetCurrentUser(auth, credential);
    if user.Failure? {
      return Failure(user.error);
    }
    return Success(McpResponse("2.0", request.id, Some(InitializeResult), None));
  }

  /**
   * The shared body of the three list endpoints: the gate's refusal; a 500
   * while the pool is not set; otherwise the entries the pool's servers list,
   * in server order.
   */
  method ListEndpoint(kind: ListKind, pool: ClientPool?, auth: AuthService?, credential: Option<string>,
                      requestId: Option<string>, replies: string -> ReplyEvent)
    returns (r: Result<McpResponse, HttpError>)
    requires pool != null ==> pool.Valid()
    requires auth != null ==> auth.Valid()
    modifies pool, auth
    ensures pool != null ==> pool.Valid()
    ensures auth != null ==> auth.Valid()
    ensures TokenUse(auth, credential, Gate(credential, old(Tokens(auth))).Success?)
    ensures var gate := Gate(credential, old(Tokens(auth)));
      && (gate.Failure? ==> r == Failure(gate.error) && (pool != null ==> unchanged(pool)))
      && (gate.Success? && pool == null ==> r == Failure(PoolMissing))
      && (gate.Success? && pool != null ==>
            && r == Success(ListResponse(kind, requestId, Success(Collect(old(pool.order), Listed(old(pool.servers), replies, kind.Key())))))
            && PoolAfterListing(pool, kind, replies))
  {
    var user := GetCurrentUser(auth, credential);
    if user.Failure? {
      return Failure(user.error);
    }
    if pool == null {
      return Failure(PoolMissing);
    }
    var all := pool.ListAll(kind, replies);
    return Success(ListResponse(kind, requestId, Success(all)));
  }

  /** `mcp_tools_list`. */
  method McpToolsList(pool: ClientPool?, auth: AuthService?, credential: Option<string>,
      requestId: Option<string>, replies: string -> ReplyEvent)
    returns (r: Result<McpResponse, HttpError>)
    requires pool != null ==> pool.Valid()
    requires auth != null ==> auth.Valid()
    modifies pool, auth
    ensures pool != null ==> pool.Valid()
    ensures auth != null ==> auth.Valid()
    ensures TokenUse(auth, credential, Gate(credential, old(Tokens(auth))).Success?)
    ensures var gate := Gate(credential, old(Tokens(auth)));
      && (gate.Failure? ==> r == Failure(gate.error) && (pool != null ==> unchanged(pool)))
      && (gate.Success? && pool == null ==> r == Failure(PoolMissing))
      && (gate.Success? && pool != null ==>
            && r == Success(ListResponse(ToolsList, requestId, Success(Collect(old(pool.order), Listed(old(pool.servers), replies, "tools")))))
            && PoolAfterListing(pool, ToolsList, replies))
  {
    r := ListEndpoint(ToolsList, pool, auth, credential, requestId, replies);
  }

  /** `mcp_resources_list`. */
  method McpResourcesList(pool: ClientPool?, auth: AuthService?, credential: Option<string>,
      requestId: Option<string>, replies: string -> ReplyEvent)
    returns (r: Result<McpResponse, HttpError>)
    requires pool != null ==> pool.Valid()
    requires auth != null ==> auth.Valid()
    modifies pool, auth
    ensures pool != null ==> pool.Valid()
    ensures auth != null ==> auth.Valid()
    ensures TokenUse(auth, credential, Gate(credential, old(Tokens(auth))).Success?)
    ensures var gate := Gate(credential, old(Tokens(auth)));
      && (gate.Failure? ==> r == Failure(gate.error) && (pool != null ==> unchanged(pool)))
      && (gate.Success? && pool == null ==> r == Failure(PoolMissing))
      && (gate.Success? && pool != null ==>
            && r == Success(ListResponse(ResourcesList, requestId, Success(Collect(old(pool.order), Listed(old(pool.servers), replies, "resources")))))
            && PoolAfterListing(pool, ResourcesList, replies))
  {
    r := ListEndpoint(ResourcesList, pool, auth, credential, requestId, replies);
  }

  /** `mcp_prompts_list`. */
  method McpPromptsList(pool: ClientPool?, auth: AuthService?, credential: Option<string>,
      requestId: Option<string>, replies: string -> ReplyEvent)
    returns (r: Result<McpResponse, HttpError>)
    requires pool != null ==> pool.Valid()
    requires auth != null ==> auth.Valid()
    modifies pool, auth
    ensures pool != null ==> pool.Valid()
    ensures auth != null ==> auth.Valid()
    ensures TokenUse(auth, credential, Gate(credential, old(Tokens(auth))).Success?)
    ensures var gate := Gate(credential, old(Tokens(auth)));
      && (gate.Failure? ==> r == Failure(gate.error) && (pool != null ==> unchanged(pool)))
      && (gate.Success? && pool == null ==> r == Failure(PoolMissing))
      && (gate.Success? && pool != null ==>
            && r == Success(ListResponse(PromptsList, requestId, Success(Collect(old(pool.order), Listed(old(pool.servers), replies, "prompts")))))
            && PoolAfterListing(pool, PromptsList, replies))
  {
    r := ListEndpoint(PromptsList, pool, auth, credential, requestId, replies);
  }

  /**
   * `mcp_tool_call`: the gate's refusal; a 500 while the pool is not set; a
   * falsy `name` answered with -32602 without asking the pool; otherwise the
   * pool's `call_tool` outcome as the response.
   */
  method McpToolCall(pool: ClientPool?, auth: AuthService?, credential: Option<string>,
                     request: PostRequest, reply: ReplyEvent)
    returns (r: Result<McpResponse, HttpError>)
    requires pool != null ==> pool.Valid()
    requires auth != null ==> auth.Valid()
    modifies pool, auth
    ensures pool != null ==> pool.Valid()
    ensures auth != null ==> auth.Valid()
    ensures TokenUse(auth, credential, Gate(credential, old(Tokens(auth))).Success?)
    ensures var gate := Gate(credential, old(Tokens(auth)));
      var name := Get(request.params, "name", JNull);
      && (gate.Failure? ==> r == Failure(gate.error) && (pool != null ==> unchanged(pool)))
      && (gate.Success? && pool == null ==> r == Failure(PoolMissing))
      && (gate.Success? && pool != null && !Truthy(name) ==>
            r == Success(ErrorResponse(request.id, InvalidParams, "Missing tool name")) && unchanged(pool))
      && (gate.Success? && pool != null && Truthy(name) ==>
            && r == Success(ToolCallResponse(request.id, CallResult(old(pool.toolRegistry), old(pool.servers), name, reply)))
            && PoolAfterCall(pool, name, Get(request.params, "arguments", JObject(map[])), reply))
  {
    var name := Get(request.params, "name", JNull);
    var arguments := Get(request.params, "arguments", JObject(map[]));
    var user := GetCurrentUser(auth, credential);
    if user.Failure? {
      return Failure(user.error);
    }
    if pool == null {
      return Failure(PoolMissing);
    }
    if !Truthy(name) {
      return Success(ErrorResponse(request.id, InvalidParams, "Missing tool name"));
    }
    var outcome := pool.CallTool(name, arguments, reply);
    return Success(ToolCallResponse(request.id, outcome));
  }
}
