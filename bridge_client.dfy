/**
 * `MCPBridgeClient`: the object whose fields the bridge updates in place. Every
 * method is proved to move the object's state exactly as the corresponding
 * step function of module Bridge does, so the lemmas proved there about
 * messages and the loop hold of the object.
 */
module BridgeClient {
  import opened Wrappers
  import opened Json
  import opened Bridge

  class McpBridgeClient {
    /** The control plane's base URL. */
    const baseUrl: string
    var running: bool
    /** Whether `session` has been created. */
    var sessionReady: bool
    /** The keys of `pending_requests`. */
    var pendingRequests: set<string>
    /** `stats["messages_processed"]`. */
    var messagesProcessed: nat
    /** The objects written to stdout, one per line. */
    var written: seq<map<string, Json>>
    /** The HTTP requests made to the control plane. */
    var calls: seq<HttpCall>
    /** The responses handed to the futures that awaited them. */
    var handedOver: seq<Message>

    /** The object's state as a value. */
    function State(): Client
      reads this
    {
      Client(running, sessionReady, pendingRequests, messagesProcessed, written, calls, handedOver)
    }

    /** A new bridge: not running, no session, nothing pending, nothing counted. */
    constructor (baseUrl: string)
      ensures this.baseUrl == baseUrl
      ensures State() == Client(false, false, {}, 0, [], [], [])
    {
      this.baseUrl := baseUrl;
      running := false;
      sessionReady := false;
      pendingRequests := {};
      messagesProcessed := 0;
      written := [];
      calls := [];
      handedOver := [];
    }

    /** `_signal_handler`: a shutdown signal only clears `running`. */
    method SignalHandler()
      modifies this`running
      ensures State() == old(State()).(running := false)
    {
      running := false;
    }

    /** `_init_http_session`. */
    method InitHttpSession()
      modifies this`sessionReady
      ensures State() == old(State()).(sessionReady := true)
    {
      sessionReady := true;
    }

    /** `_send_response`. */
    method SendResponse(m: Message, w: WriteOutcome)
      modifies this`written, this`running
      ensures State() == Send(old(State()), m, w)
    {
      match w
      case Flushed => written := written + [ToWire(m)];
      case BrokenPipe => running := false;
      case WriteFailed(_) =>
    }

    /** `_send_error_response`: an error reply carrying `id`. */
    method SendErrorResponse(id: Option<Id>, code: int, text: string, w: WriteOutcome)
      modifies this`written, this`running
      ensures State() == Send(old(State()), ErrorReply(id, code, text), w)
    {
      SendResponse(ErrorReply(id, code, text), w);
    }

    /** `_handle_request`, given what the HTTP exchange produced and how the reply's write ended. */
    method HandleRequest(m: Message, answer: Result<Message, string>, w: WriteOutcome)
      modifies this`written, this`running, this`calls
      ensures State() == OnRequest(old(State()), m, baseUrl, answer, w)
    {
      if !sessionReady {
        if running {
          SendErrorResponse(m.id, InternalError, "Internal error: HTTP session not initialized", w);
        }
        return;
      }
      var route := Route(m, baseUrl);
      if route.Some? {
        calls := calls + [route.value];
      }
      var response := ForwardReply(m, baseUrl, answer);
      SendResponse(response, w);
    }

    /** `_handle_response`: pops a pending key and hands the response over. */
    method HandleResponse(m: Message)
      modifies this`pendingRequests, this`handedOver
      ensures State() == OnResponse(old(State()), m)
    {
      var key := ResponseKey(m);
      if key.Some? && key.value in pendingRequests {
        pendingRequests := pendingRequests - {key.value};
        handedOver := handedOver + [m];
      }
    }

    /** `_process_message` for one decoded line. */
    method ProcessMessage(d: Decoded, answer: Result<Message, string>, w: WriteOutcome)
      modifies this
      ensures State() == OnMessage(old(State()), d, baseUrl, answer, w)
    {
      match d
      case NotJson =>
        if running {
          SendErrorResponse(None, ParseError, "Parse error", w);
        }
      case NotEnvelope =>
        if running {
          SendErrorResponse(None, InvalidRequest, "Invalid Request", w);
        }
      case Envelope(m) =>
        ProcessEnvelope(m, answer, w);
    }

    /** `_process_message` for a valid envelope: counted, then dispatched on its kind. */
    method ProcessEnvelope(m: Message, answer: Result<Message, string>, w: WriteOutcome)
      modifies this
      ensures State() == OnEnvelope(old(State()), m, baseUrl, answer, w)
    {
      ghost var counted := old(State()).(processed := old(State()).processed + 1);
      messagesProcessed := messagesProcessed + 1;
      assert State() == counted;
      match Classify(m)
      case Notification =>
      case Request =>
        HandleRequest(m, answer, w);
        assert State() == OnRequest(counted, m, baseUrl, answer, w);
      case Response =>
        HandleResponse(m);
        assert State() == OnResponse(counted, m);
      case Unknown =>
    }

    /** `_message_loop`: reads until end of input or until the bridge stops running. */
    method MessageLoop(events: seq<Event>, parse: string -> Option<Json>)
      modifies this
      ensures State() == Loop(old(State()), events, parse, baseUrl)
    {
      var i := 0;
      while running && i < |events|
        invariant 0 <= i <= |events|
        invariant Loop(old(State()), events, parse, baseUrl) == Loop(State(), events[i..], parse, baseUrl)
      {
        match events[i] {
          case Signal =>
            SignalHandler();
          case Line(text, answer, w) =>
            if text == "" {
              return;
            }
            var line := Strip(text);
            if line != "" {
              ProcessMessage(Decode(parse(line)), answer, w);
            }
          case Interrupted(text, answer, w) =>
            SignalHandler();
            if text == "" {
              return;
            }
            var line := Strip(text);
            if line != "" {
              ProcessMessage(Decode(parse(line)), answer, w);
            }
        }
        i := i + 1;
      }
    }

    /** `start`: runs, opens the HTTP session, then reads messages. */
    method Start(events: seq<Event>, parse: string -> Option<Json>)
      modifies this
      ensures State() == Loop(old(State()).(running := true, sessionReady := true), events, parse, baseUrl)
    {
      running := true;
      InitHttpSession();
      MessageLoop(events, parse);
    }
  }
}
