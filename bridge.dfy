/**
 * The bridge's message handling: the JSON-RPC 2.0 envelope, how a decoded
 * line is validated and classified, the table that routes request methods to
 * control-plane endpoints, the error replies, the wire form of an outgoing
 * message, and the bridge's state as a value with one function per step
 * (the class in module BridgeClient is proved to follow these).
 */
module Bridge {
  import opened Wrappers
  import opened Json

  /** `MCPMessage`: a validated envelope. A JSON `null` or an absent member is `None`. */
  datatype Message = Message(
    jsonrpc: string,
    id: Option<Id>,
    methodName: Option<string>,
    params: Option<map<string, Json>>,
    result: Option<Json>,
    error: Option<map<string, Json>>)

  /** Error codes of section 5.1 of the JSON-RPC 2.0 specification. */
  const ParseError: int := -32700
  const InvalidRequest: int := -32600
  const MethodNotFound: int := -32601
  const InternalError: int := -32603

  /** An `MCPMessage` carrying only an id and an error object. */
  function ErrorReply(id: Option<Id>, code: int, text: string): Message {
    Message("2.0", id, None, None, None, Some(map["code" := JNum(code), "message" := JStr(text)]))
  }

  /** An id as it appears in a JSON document; `None` is `null`. */
  function IdJson(id: Option<Id>): Json {
    match id
    case Some(i) => i.ToJson()
    case None => JNull
  }

  /** The f-string text of an optional method name. */
  function MethodText(m: Message): string {
    m.methodName.GetOr("None")
  }

  // ---------------------------------------------------------------------------
  // Validation (`MCPMessage.model_validate`) and the wire form (`model_dump(exclude_none=True)`)

  /**
   * The id a validated envelope keeps: a string or an integer; a boolean is
   * coerced to 1 or 0; `null` is no id. `None` when the member has another kind.
   */
  function IdOf(j: Json): Option<Option<Id>> {
    match j
    case JNull => Some(None)
    case JStr(s) => Some(Some(StrId(s)))
    case JNum(n) => Some(Some(IntId(n)))
    case JBool(b) => Some(Some(IntId(if b then 1 else 0)))
    case _ => None
  }

  /** Whether every member the envelope declares has an acceptable kind. */
  predicate Acceptable(fields: map<string, Json>) {
    var jsonrpc := Get(fields, "jsonrpc", JStr("2.0"));
    var methodName := Get(fields, "method", JNull);
    var params := Get(fields, "params", JNull);
    var error := Get(fields, "error", JNull);
    && jsonrpc.JStr?
    && IdOf(Get(fields, "id", JNull)).Some?
    && (methodName.JNull? || methodName.JStr?)
    && (params.JNull? || params.JObject?)
    && (error.JNull? || error.JObject?)
  }

  /**
   * `MCPMessage.model_validate` of a decoded JSON object: `jsonrpc` defaults to
   * "2.0", absent or `null` members become `None`, other members are ignored.
   */
  function Validate(fields: map<string, Json>): (m: Option<Message>)
    ensures m.Some? <==> Acceptable(fields)
    ensures m.Some? ==> (m.value.result.None? <==> Get(fields, "result", JNull) == JNull)
  {
    if !Acceptable(fields) then None
    else
      var methodName := Get(fields, "method", JNull);
      var params := Get(fields, "params", JNull);
      var result := Get(fields, "result", JNull);
      var error := Get(fields, "error", JNull);
      Some(Message(
        Get(fields, "jsonrpc", JStr("2.0")).s,
        IdOf(Get(fields, "id", JNull)).value,
        if methodName.JStr? then Some(methodName.s) else None,
        if params.JObject? then Some(params.fields) else None,
        if result.JNull? then None else Some(result),
        if error.JObject? then Some(error.fields) else None))
  }

  /** A value that `model_dump` writes back as it was read: its result, if any, is not `null`. */
  predicate Dumpable(m: Message) {
    m.result != Some(JNull)
  }

  /** The JSON object written for a message: `jsonrpc` and every member that is not `None`. */
  function ToWire(m: Message): (w: map<string, Json>)
    ensures "jsonrpc" in w && w["jsonrpc"] == JStr(m.jsonrpc)
    ensures "id" in w <==> m.id.Some?
    ensures "method" in w <==> m.methodName.Some?
    ensures "params" in w <==> m.params.Some?
    ensures "result" in w <==> m.result.Some?
    ensures "error" in w <==> m.error.Some?
    ensures w.Keys <= {"jsonrpc", "id", "method", "params", "result", "error"}
  {
    var w0 := map["jsonrpc" := JStr(m.jsonrpc)];
    var w1 := if m.id.Some? then w0["id" := m.id.value.ToJson()] else w0;
    var w2 := if m.methodName.Some? then w1["method" := JStr(m.methodName.value)] else w1;
    var w3 := if m.params.Some? then w2["params" := JObject(m.params.value)] else w2;
    var w4 := if m.result.Some? then w3["result" := m.result.value] else w3;
    if m.error.Some? then w4["error" := JObject(m.error.value)] else w4
  }

  /** Reading back what the bridge writes gives the message it wrote. */
  lemma WireRoundTrip(m: Message)
    requires Dumpable(m)
    ensures Validate(ToWire(m)) == Some(m)
  {
    var w := ToWire(m);
    assert Get(w, "jsonrpc", JStr("2.0")) == JStr(m.jsonrpc);
    assert Get(w, "id", JNull) == IdJson(m.id);
    assert m.id.Some? ==> IdOf(m.id.value.ToJson()) == Some(m.id);
    assert Get(w, "method", JNull) == (if m.methodName.Some? then JStr(m.methodName.value) else JNull);
    assert Get(w, "params", JNull) == (if m.params.Some? then JObject(m.params.value) else JNull);
    assert Get(w, "result", JNull) == m.result.GetOr(JNull);
    assert Get(w, "error", JNull) == (if m.error.Some? then JObject(m.error.value) else JNull);
  }

  /**
   * Writing a validated envelope keeps exactly its known members that are not
   * `null` (a boolean id comes back as the integer it was coerced to).
   */
  lemma ValidatedDumpKeys(fields: map<string, Json>)
    requires Validate(fields).Some?
    ensures var w := ToWire(Validate(fields).value);
      forall key :: key in w <==>
        key == "jsonrpc" || (key in {"id", "method", "params", "result", "error"} && key in fields && fields[key] != JNull)
  {
  }

  // ---------------------------------------------------------------------------
  // Decoding and classification (`_process_message`)

  /** What `json.loads` followed by `MCPMessage.model_validate` makes of a line. */
  datatype Decoded = NotJson | NotEnvelope | Envelope(message: Message)

  /** Decodes a line given what `json.loads` made of it (`None` when it is not JSON). */
  function Decode(parsed: Option<Json>): (d: Decoded)
    ensures d.NotJson? <==> parsed.None?
    ensures d.Envelope? ==> parsed.Some? && parsed.value.JObject? && Validate(parsed.value.fields) == Some(d.message)
  {
    match parsed
    case None => NotJson
    case Some(JObject(fields)) =>
      (match Validate(fields)
       case Some(m) => Envelope(m)
       case None => NotEnvelope)
    case Some(_) => NotEnvelope
  }

  datatype Kind = Notification | Request | Response | Unknown

  /**
   * A message with a non-empty method is a notification when it has no id and
   * a request when it has one; otherwise it is a response when it carries a
   * result or an error.
   */
  function Classify(m: Message): Kind {
    if m.methodName.Some? && m.methodName.value != "" then
      if m.id.None? then Notification else Request
    else if m.result.Some? || m.error.Some? then Response
    else Unknown
  }

  // ---------------------------------------------------------------------------
  // Routing (`_forward_to_control_plane`)

  /** An HTTP request the bridge makes to the control plane. */
  datatype HttpCall = HttpPost(url: string, body: map<string, Json>) | HttpGet(url: string)

  /** The body of the POST requests: `{method, params or {}, id}`. */
  function ForwardBody(m: Message): (body: map<string, Json>)
    ensures body.Keys == {"method", "params", "id"}
    ensures body["id"] == IdJson(m.id)
    ensures body["params"] == JObject(m.params.GetOr(map[]))
  {
    map["method" := (if m.methodName.Some? then JStr(m.methodName.value) else JNull),
        "params" := JObject(m.params.GetOr(map[])),
        "id" := IdJson(m.id)]
  }

  /** The methods the bridge forwards. */
  const Forwarded: set<string> := {"initialize", "tools/list", "tools/call", "resources/list", "prompts/list"}

  /** The text a GET puts in its `request_id` query: the id's text, `None` for no id. */
  function QueryId(m: Message): string {
    Show(IdJson(m.id))
  }

  /** The control-plane request a method is routed to; `None` for a method that is not forwarded. */
  function Route(m: Message, baseUrl: string): (call: Option<HttpCall>)
    ensures call.Some? <==> m.methodName.Some? && m.methodName.value in Forwarded
    ensures call.Some? && call.value.HttpPost? ==> call.value.body == ForwardBody(m)
    ensures call.Some? && call.value.HttpGet? ==> m.methodName.value in {"tools/list", "resources/list", "prompts/list"}
  {
    match m.methodName
    case Some("initialize") => Some(HttpPost(baseUrl + "/mcp/initialize", ForwardBody(m)))
    case Some("tools/list") => Some(HttpGet(baseUrl + ("/mcp/tools?request_id=" + QueryId(m))))
    case Some("tools/call") => Some(HttpPost(baseUrl + "/mcp/tools/call", ForwardBody(m)))
    case Some("resources/list") => Some(HttpGet(baseUrl + ("/mcp/resources?request_id=" + QueryId(m))))
    case Some("prompts/list") => Some(HttpGet(baseUrl + ("/mcp/prompts?request_id=" + QueryId(m))))
    case _ => None
  }

  /**
   * The message `_forward_to_control_plane` returns once the HTTP session
   * exists: the control plane's validated answer, or an error reply carrying
   * the request's id. `answer` is what the HTTP exchange produced (a failure
   * holds the text of the exception it raised); it is not used for a method
   * that is not forwarded.
   */
  function ForwardReply(m: Message, baseUrl: string, answer: Result<Message, string>): Message {
    if Route(m, baseUrl).None? then
      ErrorReply(m.id, MethodNotFound, "Method not found: " + MethodText(m))
    else if answer.Failure? then
      ErrorReply(m.id, InternalError, "Control plane error: " + answer.error)
    else
      answer.value
  }

  // ---------------------------------------------------------------------------
  // The bridge's state and its steps

  /** How writing one line to stdout ended. */
  datatype WriteOutcome = Flushed | BrokenPipe | WriteFailed(reason: string)

  /**
   * The bridge's state: the `running` flag, whether the HTTP session exists,
   * the keys of `pending_requests`, `messages_processed`, the objects written
   * to stdout, the HTTP requests made, and the responses handed to the futures
   * that were waiting for them.
   */
  datatype Client = Client(
    running: bool,
    sessionReady: bool,
    pending: set<string>,
    processed: nat,
    written: seq<map<string, Json>>,
    calls: seq<HttpCall>,
    handedOver: seq<Message>)

  /** `_send_response`: a broken pipe stops the bridge; any other failure is only logged. */
  function Send(c: Client, m: Message, w: WriteOutcome): Client {
    match w
    case Flushed => c.(written := c.written + [ToWire(m)])
    case BrokenPipe => c.(running := false)
    case WriteFailed(_) => c
  }

  /** `_handle_request`. */
  function OnRequest(c: Client, m: Message, baseUrl: string, answer: Result<Message, string>, w: WriteOutcome): Client {
    if !c.sessionReady then
      if c.running then Send(c, ErrorReply(m.id, InternalError, "Internal error: HTTP session not initialized"), w)
      else c
    else
      var route := Route(m, baseUrl);
      var c' := if route.Some? then c.(calls := c.calls + [route.value]) else c;
      Send(c', ForwardReply(m, baseUrl, answer), w)
  }

  /** The key a response is correlated under: `str(id)` for a truthy id. */
  function ResponseKey(m: Message): Option<string> {
    match m.id
    case Some(i) => CorrelationKey(i.ToJson())
    case None => None
  }

  /** `_handle_response`: a response whose key is pending is popped and handed over. */
  function OnResponse(c: Client, m: Message): Client {
    var key := ResponseKey(m);
    if key.Some? && key.value in c.pending then
      c.(pending := c.pending - {key.value}, handedOver := c.handedOver + [m])
    else c
  }

  /** `_process_message` for one decoded line. */
  function OnMessage(c: Client, d: Decoded, baseUrl: string, answer: Result<Message, string>, w: WriteOutcome): Client {
    match d
    case NotJson => if c.running then Send(c, ErrorReply(None, ParseError, "Parse error"), w) else c
    case NotEnvelope => if c.running then Send(c, ErrorReply(None, InvalidRequest, "Invalid Request"), w) else c
    case Envelope(m) => OnEnvelope(c, m, baseUrl, answer, w)
  }

  /** `_process_message` for a valid envelope: counted, then dispatched on its kind. */
  function OnEnvelope(c: Client, m: Message, baseUrl: string, answer: Result<Message, string>, w: WriteOutcome): Client {
    var c1 := c.(processed := c.processed + 1);
    match Classify(m)
    case Notification => c1
    case Request => OnRequest(c1, m, baseUrl, answer, w)
    case Response => OnResponse(c1, m)
    case Unknown => c1
  }

  /**
   * What the message loop sees: a line read from stdin (an empty read is end
   * of input), together with the control plane's answer should the line be
   * forwarded and how writing its reply ends; a shutdown signal between two
   * reads; or a shutdown signal that arrives while the loop is blocked reading
   * a line, which the read still returns.
   */
  datatype Event =
    | Line(text: string, answer: Result<Message, string>, write: WriteOutcome)
    | Signal
    | Interrupted(text: string, answer: Result<Message, string>, write: WriteOutcome)

  /** An empty read: the loop breaks out at once. */
  predicate EndOfInput(e: Event) {
    e.Line? && e.text == ""
  }

  /** One non-empty line read by the loop: stripped, then skipped if blank or processed. */
  function OnLine(c: Client, text: string, parse: string -> Option<Json>, baseUrl: string,
                  answer: Result<Message, string>, w: WriteOutcome): Client {
    var line := Strip(text);
    if line == "" then c else OnMessage(c, Decode(parse(line)), baseUrl, answer, w)
  }

  /**
   * `_message_loop`; `parse` is `json.loads`. `running` is tested before each
   * read only, so a line whose read a signal interrupts is still processed.
   */
  function Loop(c: Client, events: seq<Event>, parse: string -> Option<Json>, baseUrl: string): Client
    decreases |events|
  {
    if !c.running || events == [] then c
    else
      match events[0]
      case Signal => Loop(c.(running := false), events[1..], parse, baseUrl)
      case Line(text, answer, w) =>
        if text == "" then c
        else Loop(OnLine(c, text, parse, baseUrl, answer, w), events[1..], parse, baseUrl)
      case Interrupted(text, answer, w) =>
        var stopped := c.(running := false);
        if text == "" then stopped
        else Loop(OnLine(stopped, text, parse, baseUrl, answer, w), events[1..], parse, baseUrl)
  }

  // ---------------------------------------------------------------------------
  // Whitespace (`str.strip`)

  /** The characters `str.strip` removes, as far as this model goes (see README). */
  predicate IsSpace(c: char) {
    var n := c as int;
    n == 32 || 9 <= n <= 13 || 28 <= n <= 31 || n == 133 || n == 160
  }

  predicate AllSpace(s: string) {
    forall k :: 0 <= k < |s| ==> IsSpace(s[k])
  }

  function TrimStart(s: string): (t: string)
    ensures |t| <= |s| && t == s[|s| - |t|..]
    ensures t == [] || !IsSpace(t[0])
    ensures AllSpace(s[..|s| - |t|])
  {
    if s != [] && IsSpace(s[0]) then
      var t := TrimStart(s[1..]);
      assert s[..|s| - |t|] == [s[0]] + s[1..][..|s| - 1 - |t|];
      t
    else s
  }

  function TrimEnd(s: string): (t: string)
    ensures |t| <= |s| && t == s[..|t|]
    ensures t == [] || !IsSpace(t[|t| - 1])
    ensures AllSpace(s[|t|..])
  {
    if s != [] && IsSpace(s[|s| - 1]) then
      var t := TrimEnd(s[..|s| - 1]);
      assert s[|t|..] == s[..|s| - 1][|t|..] + [s[|s| - 1]];
      t
    else s
  }

  /** `str.strip`: the line without its leading and trailing whitespace. */
  function Strip(s: string): (t: string)
    ensures t == [] || (!IsSpace(t[0]) && !IsSpace(t[|t| - 1]))
  {
    TrimEnd(TrimStart(s))
  }

  /** Only whitespace is removed: the stripped line is a slice with whitespace on either side. */
  lemma StripSlice(s: string)
    ensures exists i, j :: 0 <= i <= j <= |s| && Strip(s) == s[i..j] && AllSpace(s[..i]) && AllSpace(s[j..])
  {
    var t := TrimStart(s);
    var i := |s| - |t|;
    var j := i + |TrimEnd(t)|;
    assert Strip(s) == s[i..j];
    assert s[j..] == t[|TrimEnd(t)|..];
  }

  /** A line strips to nothing exactly when it is all whitespace. */
  lemma StripBlank(s: string)
    ensures Strip(s) == "" <==> AllSpace(s)
  {
    StripSlice(s);
    var i, j :| 0 <= i <= j <= |s| && Strip(s) == s[i..j] && AllSpace(s[..i]) && AllSpace(s[j..]);
    if Strip(s) == "" {
      assert s == s[..i] + s[j..];
    }
  }

  /** Stripping twice is stripping once. */
  lemma StripIdempotent(s: string)
    ensures Strip(Strip(s)) == Strip(s)
  {
    var t := Strip(s);
    if t != [] {
      assert TrimStart(t) == t;
      assert TrimEnd(t) == t;
    }
  }

  // ---------------------------------------------------------------------------
  // What one message does

  /** A notification is counted and nothing else happens: no reply, no HTTP request. */
  lemma NotificationSilent(c: Client, m: Message, baseUrl: string, answer: Result<Message, string>, w: WriteOutcome)
    requires Classify(m) == Notification
    ensures OnMessage(c, Envelope(m), baseUrl, answer, w) == c.(processed := c.processed + 1)
  {
  }

  /**
   * A request to a running bridge with an HTTP session gets exactly one reply,
   * and at most one HTTP request is made; the reply carries the request's id
   * unless it is the control plane's own answer.
   */
  lemma RequestAnsweredOnce(c: Client, m: Message, baseUrl: string, answer: Result<Message, string>)
    requires Classify(m) == Request && c.running && c.sessionReady
    ensures var c' := OnMessage(c, Envelope(m), baseUrl, answer, Flushed);
      && c'.written == c.written + [ToWire(ForwardReply(m, baseUrl, answer))]
      && c'.processed == c.processed + 1
      && c'.calls == c.calls + (if Route(m, baseUrl).Some? then [Route(m, baseUrl).value] else [])
      && c'.pending == c.pending && c'.running
  {
  }

  /**
   * The reply to a request that is not forwarded, or whose forwarding failed,
   * echoes its id: -32601 for a method the bridge does not route, -32603 with
   * the failure's text otherwise. A forwarded request with an answer gets that
   * answer unchanged.
   */
  lemma ForwardReplyId(m: Message, baseUrl: string, answer: Result<Message, string>)
    requires Classify(m) == Request
    ensures var r := ToWire(ForwardReply(m, baseUrl, answer));
      && (Route(m, baseUrl).None? ==>
            r == map["jsonrpc" := JStr("2.0"), "id" := m.id.value.ToJson(),
                     "error" := JObject(map["code" := JNum(MethodNotFound), "message" := JStr("Method not found: " + m.methodName.value)])])
      && (Route(m, baseUrl).Some? && answer.Failure? ==>
            r == map["jsonrpc" := JStr("2.0"), "id" := m.id.value.ToJson(),
                     "error" := JObject(map["code" := JNum(InternalError), "message" := JStr("Control plane error: " + answer.error)])])
      && (Route(m, baseUrl).Some? && answer.Success? ==> ForwardReply(m, baseUrl, answer) == answer.value)
  {
  }

  /**
   * Without an HTTP session a request is answered with -32603 carrying its id
   * while the bridge runs, and nothing is sent once it has stopped.
   */
  lemma RequestWithoutSession(c: Client, m: Message, baseUrl: string, answer: Result<Message, string>, w: WriteOutcome)
    requires Classify(m) == Request && !c.sessionReady
    ensures var c' := OnMessage(c, Envelope(m), baseUrl, answer, w);
      && c'.calls == c.calls
      && (c.running ==> c' == Send(c.(processed := c.processed + 1),
                                   ErrorReply(m.id, InternalError, "Internal error: HTTP session not initialized"), w))
      && (!c.running ==> c' == c.(processed := c.processed + 1))
  {
  }

  /**
   * A line that is not JSON, or not a valid envelope, is answered with -32700 or
   * -32600 and no `id` member (the `None` id is dropped from the output), is not
   * counted, and is ignored once the bridge has stopped.
   */
  lemma BadLineReply(c: Client, d: Decoded, baseUrl: string, answer: Result<Message, string>)
    requires d.NotJson? || d.NotEnvelope?
    ensures var code := if d.NotJson? then ParseError else InvalidRequest;
      var text := if d.NotJson? then "Parse error" else "Invalid Request";
      var c' := OnMessage(c, d, baseUrl, answer, Flushed);
      && (c.running ==> c' == c.(written := c.written + [map["jsonrpc" := JStr("2.0"),
                                                             "error" := JObject(map["code" := JNum(code), "message" := JStr(text)])]]))
      && (!c.running ==> c' == c)
  {
    var r := ErrorReply(None, if d.NotJson? then ParseError else InvalidRequest, if d.NotJson? then "Parse error" else "Invalid Request");
    assert ToWire(r).Keys == {"jsonrpc", "error"};
  }

  /** A broken pipe while replying stops the bridge and writes nothing. */
  lemma BrokenPipeStops(c: Client, m: Message)
    ensures Send(c, m, BrokenPipe) == c.(running := false)
  {
  }

  /**
   * A response whose truthy id is pending pops that key and is handed over
   * once; handling the same response again changes nothing.
   */
  lemma ResponsePoppedOnce(c: Client, m: Message)
    ensures var c' := OnResponse(c, m);
      && (ResponseKey(m).Some? && ResponseKey(m).value in c.pending ==>
            c'.pending == c.pending - {ResponseKey(m).value} && c'.handedOver == c.handedOver + [m])
      && (ResponseKey(m).None? || ResponseKey(m).value !in c.pending ==> c' == c)
      && OnResponse(c', m) == c'
  {
  }

  /** A response whose id is 0 or the empty string is never correlated. */
  lemma FalsyIdIgnored(c: Client, m: Message)
    requires m.id == Some(IntId(0)) || m.id == Some(StrId(""))
    ensures OnResponse(c, m) == c
  {
  }

  // ---------------------------------------------------------------------------
  // What the loop does

  /** Processing a line once the bridge has stopped leaves it stopped. */
  lemma OnLineKeepsStopped(c: Client, text: string, parse: string -> Option<Json>, baseUrl: string,
                           answer: Result<Message, string>, w: WriteOutcome)
    requires !c.running
    ensures !OnLine(c, text, parse, baseUrl, answer, w).running
  {
    var line := Strip(text);
    if line != "" {
      OnMessageStep(c, Decode(parse(line)), baseUrl, answer, w);
    }
  }

  /**
   * Nothing is read after end of input, after a signal between reads, or after
   * the line whose read a signal interrupted.
   */
  lemma {:induction false} NothingAfterStop(c: Client, pre: seq<Event>, e: Event, post: seq<Event>, parse: string -> Option<Json>, baseUrl: string)
    requires !e.Line? || e.text == ""
    ensures Loop(c, pre + [e] + post, parse, baseUrl) == Loop(c, pre + [e], parse, baseUrl)
    decreases |pre|
  {
    if c.running {
      if pre == [] {
        assert (pre + [e] + post)[0] == e && (pre + [e])[0] == e;
        assert (pre + [e] + post)[1..] == post;
        assert (pre + [e])[1..] == [];
        if e.Interrupted? && e.text != "" {
          OnLineKeepsStopped(c.(running := false), e.text, parse, baseUrl, e.answer, e.write);
        }
      } else {
        assert (pre + [e] + post)[0] == pre[0];
        assert (pre + [e] + post)[1..] == pre[1..] + [e] + post;
        assert (pre + [e])[1..] == pre[1..] + [e];
        match pre[0]
        case Signal =>
        case Line(text, answer, w) =>
          if text != "" {
            NothingAfterStop(OnLine(c, text, parse, baseUrl, answer, w), pre[1..], e, post, parse, baseUrl);
          }
        case Interrupted(text, answer, w) =>
          if text != "" {
            OnLineKeepsStopped(c.(running := false), text, parse, baseUrl, answer, w);
          }
      }
    }
  }

  /**
   * A shutdown signal that arrives while the loop waits on a read does not
   * discard the line that read returns: it is processed with `running`
   * already false, and the loop ends after it.
   */
  lemma InterruptedReadProcessed(c: Client, text: string, answer: Result<Message, string>, w: WriteOutcome,
                                 post: seq<Event>, parse: string -> Option<Json>, baseUrl: string)
    requires c.running && text != ""
    ensures Loop(c, [Interrupted(text, answer, w)] + post, parse, baseUrl)
         == OnLine(c.(running := false), text, parse, baseUrl, answer, w)
  {
    var events := [Interrupted(text, answer, w)] + post;
    assert events[0] == Interrupted(text, answer, w);
    OnLineKeepsStopped(c.(running := false), text, parse, baseUrl, answer, w);
  }

  /**
   * In particular a request read while a signal arrives is still forwarded and
   * answered when the bridge has its HTTP session, and the bridge then stops.
   */
  lemma InterruptedRequestAnswered(c: Client, text: string, m: Message, answer: Result<Message, string>,
                                   post: seq<Event>, parse: string -> Option<Json>, baseUrl: string)
    requires c.running && c.sessionReady && Classify(m) == Request
    requires text != "" && Strip(text) != "" && Decode(parse(Strip(text))) == Envelope(m)
    ensures var c' := Loop(c, [Interrupted(text, answer, Flushed)] + post, parse, baseUrl);
      && c'.written == c.written + [ToWire(ForwardReply(m, baseUrl, answer))]
      && c'.calls == c.calls + (if Route(m, baseUrl).Some? then [Route(m, baseUrl).value] else [])
      && c'.processed == c.processed + 1
      && !c'.running
  {
    InterruptedReadProcessed(c, text, answer, Flushed, post, parse, baseUrl);
  }

  /** Lines of nothing but whitespace are skipped as if they had not been read. */
  lemma {:induction false} BlankLinesIgnored(c: Client, pre: seq<Event>, e: Event, post: seq<Event>, parse: string -> Option<Json>, baseUrl: string)
    requires e.Line? && e.text != "" && Strip(e.text) == ""
    ensures Loop(c, pre + [e] + post, parse, baseUrl) == Loop(c, pre + post, parse, baseUrl)
    decreases |pre|
  {
    if c.running {
      if pre == [] {
        assert (pre + [e] + post)[0] == e;
        assert (pre + [e] + post)[1..] == post;
        assert pre + post == post;
      } else {
        assert (pre + [e] + post)[0] == pre[0];
        assert (pre + post)[0] == pre[0];
        assert (pre + [e] + post)[1..] == pre[1..] + [e] + post;
        assert (pre + post)[1..] == pre[1..] + post;
        match pre[0]
        case Signal =>
          BlankLinesIgnored(c.(running := false), pre[1..], e, post, parse, baseUrl);
        case Line(text, answer, w) =>
          if text != "" {
            BlankLinesIgnored(OnLine(c, text, parse, baseUrl, answer, w), pre[1..], e, post, parse, baseUrl);
          }
        case Interrupted(text, answer, w) =>
          if text != "" {
            OnLineKeepsStopped(c.(running := false), text, parse, baseUrl, answer, w);
          }
      }
    }
  }

  /**
   * What one event may do to the state: keep the session, pop at most one
   * pending key and hand over one response for it, append at most one object
   * to stdout and one HTTP request, count at most one message, and never set
   * `running` back.
   */
  predicate AtMostOneStep(c: Client, c1: Client) {
    && c1.sessionReady == c.sessionReady
    && ((c1.pending == c.pending && c1.handedOver == c.handedOver)
        || (exists key :: key in c.pending && c1.pending == c.pending - {key} && |c1.handedOver| == |c.handedOver| + 1 && c1.handedOver[..|c.handedOver|] == c.handedOver))
    && (c1.written == c.written || (|c1.written| == |c.written| + 1 && c1.written[..|c.written|] == c.written))
    && (c1.calls == c.calls || (|c1.calls| == |c.calls| + 1 && c1.calls[..|c.calls|] == c.calls))
    && c.processed <= c1.processed <= c.processed + 1
    && (c1.running ==> c.running)
  }

  lemma SendStep(c: Client, m: Message, w: WriteOutcome)
    ensures AtMostOneStep(c, Send(c, m, w))
  {
    var c1 := Send(c, m, w);
    if w.Flushed? {
      assert c1.written[..|c.written|] == c.written;
    }
  }

  lemma OnRequestStep(c: Client, m: Message, baseUrl: string, answer: Result<Message, string>, w: WriteOutcome)
    ensures AtMostOneStep(c, OnRequest(c, m, baseUrl, answer, w))
    ensures OnRequest(c, m, baseUrl, answer, w).processed == c.processed
  {
    if !c.sessionReady {
      SendStep(c, ErrorReply(m.id, InternalError, "Internal error: HTTP session not initialized"), w);
    } else {
      var route := Route(m, baseUrl);
      var c' := if route.Some? then c.(calls := c.calls + [route.value]) else c;
      SendStep(c', ForwardReply(m, baseUrl, answer), w);
      assert c'.calls[..|c.calls|] == c.calls;
    }
  }

  lemma OnResponseStep(c: Client, m: Message)
    ensures AtMostOneStep(c, OnResponse(c, m))
    ensures OnResponse(c, m).processed == c.processed
  {
    var key := ResponseKey(m);
    if key.Some? && key.value in c.pending {
      var c1 := OnResponse(c, m);
      assert c1.handedOver[..|c.handedOver|] == c.handedOver;
    }
  }

  /** One message is one step. */
  lemma OnMessageStep(c: Client, d: Decoded, baseUrl: string, answer: Result<Message, string>, w: WriteOutcome)
    ensures AtMostOneStep(c, OnMessage(c, d, baseUrl, answer, w))
  {
    match d
    case NotJson => SendStep(c, ErrorReply(None, ParseError, "Parse error"), w);
    case NotEnvelope => SendStep(c, ErrorReply(None, InvalidRequest, "Invalid Request"), w);
    case Envelope(m) => EnvelopeStep(c, m, baseUrl, answer, w);
  }

  lemma EnvelopeStep(c: Client, m: Message, baseUrl: string, answer: Result<Message, string>, w: WriteOutcome)
    ensures AtMostOneStep(c, OnEnvelope(c, m, baseUrl, answer, w))
  {
    var c1 := c.(processed := c.processed + 1);
    match Classify(m)
    case Notification =>
    case Request =>
      OnRequestStep(c1, m, baseUrl, answer, w);
      CountedStep(c, OnRequest(c1, m, baseUrl, answer, w));
    case Response =>
      OnResponseStep(c1, m);
      CountedStep(c, OnResponse(c1, m));
    case Unknown =>
  }

  /** Counting a message and then taking a step that counts nothing more is one step. */
  lemma CountedStep(c: Client, c2: Client)
    requires AtMostOneStep(c.(processed := c.processed + 1), c2) && c2.processed == c.processed + 1
    ensures AtMostOneStep(c, c2)
  {
  }

  /** The state after the first event of the loop, if the loop goes on. */
  function FirstStep(c: Client, e: Event, parse: string -> Option<Json>, baseUrl: string): Client {
    match e
    case Signal => c.(running := false)
    case Line(text, answer, w) => OnLine(c, text, parse, baseUrl, answer, w)
    case Interrupted(text, answer, w) =>
      if text == "" then c.(running := false)
      else OnLine(c.(running := false), text, parse, baseUrl, answer, w)
  }

  lemma FirstStepIsOneStep(c: Client, e: Event, parse: string -> Option<Json>, baseUrl: string)
    ensures AtMostOneStep(c, FirstStep(c, e, parse, baseUrl))
  {
    if e.Line? && Strip(e.text) != "" {
      OnMessageStep(c, Decode(parse(Strip(e.text))), baseUrl, e.answer, e.write);
    } else if e.Interrupted? && e.text != "" && Strip(e.text) != "" {
      OnMessageStep(c.(running := false), Decode(parse(Strip(e.text))), baseUrl, e.answer, e.write);
    }
  }

  /** The loop is its first step followed by the loop over the remaining events. */
  lemma LoopUnfold(c: Client, events: seq<Event>, parse: string -> Option<Json>, baseUrl: string)
    requires c.running && events != [] && !EndOfInput(events[0])
    ensures Loop(c, events, parse, baseUrl) == Loop(FirstStep(c, events[0], parse, baseUrl), events[1..], parse, baseUrl)
  {
    if events[0].Interrupted? && events[0].text != "" {
      OnLineKeepsStopped(c.(running := false), events[0].text, parse, baseUrl, events[0].answer, events[0].write);
    }
  }

  /**
   * Every response handed over pops one pending key: the table only shrinks,
   * and it loses exactly as many keys as responses are handed over.
   */
  lemma {:induction false} LoopCorrelatesOnce(c: Client, events: seq<Event>, parse: string -> Option<Json>, baseUrl: string)
    ensures var c' := Loop(c, events, parse, baseUrl);
      && c'.pending <= c.pending
      && |c'.handedOver| == |c.handedOver| + |c.pending - c'.pending|
      && c'.handedOver[..|c.handedOver|] == c.handedOver
    decreases |events|
  {
    if c.running && events != [] && !EndOfInput(events[0]) {
      var c1 := FirstStep(c, events[0], parse, baseUrl);
      LoopUnfold(c, events, parse, baseUrl);
      FirstStepIsOneStep(c, events[0], parse, baseUrl);
      LoopCorrelatesOnce(c1, events[1..], parse, baseUrl);
      CorrelationChain(c, c1, Loop(c1, events[1..], parse, baseUrl));
    }
  }

  /** The correlation count carries over one step followed by the rest of the loop. */
  lemma CorrelationChain(c: Client, c1: Client, c': Client)
    requires AtMostOneStep(c, c1)
    requires c'.pending <= c1.pending
    requires |c'.handedOver| == |c1.handedOver| + |c1.pending - c'.pending|
    requires c'.handedOver[..|c1.handedOver|] == c1.handedOver
    ensures c'.pending <= c.pending
    ensures |c'.handedOver| == |c.handedOver| + |c.pending - c'.pending|
    ensures c'.handedOver[..|c.handedOver|] == c.handedOver
  {
    if c1.pending == c.pending {
      assert c.pending - c1.pending == {};
    } else {
      var key :| key in c.pending && c1.pending == c.pending - {key};
      assert c.pending - c1.pending == {key};
    }
    SetDifferenceChain(c.pending, c1.pending, c'.pending);
    assert c'.handedOver[..|c.handedOver|] == c'.handedOver[..|c1.handedOver|][..|c.handedOver|];
  }

  /** What two shrinking steps remove is what the first removed plus what the second removed. */
  lemma SetDifferenceChain(a: set<string>, b: set<string>, c: set<string>)
    requires c <= b <= a
    ensures |a - c| == |a - b| + |b - c|
  {
    assert a - c == (a - b) + (b - c);
    assert (a - b) * (b - c) == {};
  }

  /**
   * The growth `n` events may cause: appends to stdout and to the HTTP requests
   * and messages counted, at most one of each per event; the session is kept.
   */
  predicate AppendsAtMost(c: Client, c': Client, n: nat) {
    && |c.written| <= |c'.written| <= |c.written| + n && c'.written[..|c.written|] == c.written
    && |c.calls| <= |c'.calls| <= |c.calls| + n && c'.calls[..|c.calls|] == c.calls
    && c.processed <= c'.processed <= c.processed + n
    && c'.sessionReady == c.sessionReady
  }

  lemma AppendChain(c: Client, c1: Client, c': Client, n: nat)
    requires AtMostOneStep(c, c1) && AppendsAtMost(c1, c', n)
    ensures AppendsAtMost(c, c', n + 1)
  {
    assert c'.written[..|c.written|] == c'.written[..|c1.written|][..|c.written|];
    assert c'.calls[..|c.calls|] == c'.calls[..|c1.calls|][..|c.calls|];
  }

  /**
   * The loop only appends: to stdout at most one object per event, to the HTTP
   * requests at most one per event, and it counts at most one message per event.
   */
  lemma {:induction false} LoopAppendsOnly(c: Client, events: seq<Event>, parse: string -> Option<Json>, baseUrl: string)
    ensures AppendsAtMost(c, Loop(c, events, parse, baseUrl), |events|)
    decreases |events|
  {
    if c.running && events != [] && !EndOfInput(events[0]) {
      var c1 := FirstStep(c, events[0], parse, baseUrl);
      LoopUnfold(c, events, parse, baseUrl);
      FirstStepIsOneStep(c, events[0], parse, baseUrl);
      LoopAppendsOnly(c1, events[1..], parse, baseUrl);
      AppendChain(c, c1, Loop(c1, events[1..], parse, baseUrl), |events| - 1);
    }
  }
}
