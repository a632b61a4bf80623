/** lib/connection.go: the connection object with its handler slots, the
    endpoints, the dispatch loop as a method, the asynchronous send, and the
    synchronous send without its HTTP call. The network is a parameter: the
    websocket handshake, the frames read, the outcome of a write and the hub's
    HTTP answer are given to the operations that would perform them. */
module LibConnection {
  import opened Wrappers
  import opened LibTypes
  import opened LibFuncs
  import opened Dispatch

  /** The websocket endpoint of the hub. */
  function BridgeEndpoint(params: ConnectionParams): string
  {
    WebsocketProtocol(params) + "://" + params.baseUrl + "/api/bridge"
  }

  /** The HTTP endpoint that accepts messages. */
  function MessageEndpoint(params: ConnectionParams): string
  {
    HttpProtocol(params) + "://" + params.baseUrl + "/api/message"
  }

  /** `scheme + "://" + base + path` determines the scheme and the base when
      the scheme is one of two whose third characters differ. */
  lemma {:induction false} UrlDeterminesParts(s1: string, s2: string, b1: string, b2: string, path: string)
    requires s1 in {"ws", "wss", "http", "https"} && s2 in {"ws", "wss", "http", "https"}
    requires |s1| >= 4 <==> |s2| >= 4
    requires s1 + "://" + b1 + path == s2 + "://" + b2 + path
    ensures s1 == s2 && b1 == b2
  {
    var u := s1 + "://" + b1 + path;
    // "ws" / "wss" and "http" / "https": the shorter scheme has ':' where the longer has 's'.
    var n := if |s1| < |s2| then |s1| else |s2|;
    assert u[n] == (s2 + "://" + b2 + path)[n];
    assert |b1| == |b2|;
    var k := |s1| + 3;
    assert b1 == u[k..k + |b1|];
    assert b2 == (s2 + "://" + b2 + path)[k..k + |b2|];
  }

  /** Each endpoint names the TLS choice and the base address unambiguously:
      two params give the same endpoint exactly when they agree on both. */
  lemma EndpointsDetermineParams(p: ConnectionParams, q: ConnectionParams)
    ensures BridgeEndpoint(p) == BridgeEndpoint(q) <==>
              p.isTlsEnabled == q.isTlsEnabled && p.baseUrl == q.baseUrl
    ensures MessageEndpoint(p) == MessageEndpoint(q) <==>
              p.isTlsEnabled == q.isTlsEnabled && p.baseUrl == q.baseUrl
  {
    if BridgeEndpoint(p) == BridgeEndpoint(q) {
      UrlDeterminesParts(WebsocketProtocol(p), WebsocketProtocol(q), p.baseUrl, q.baseUrl, "/api/bridge");
    }
    if MessageEndpoint(p) == MessageEndpoint(q) {
      UrlDeterminesParts(HttpProtocol(p), HttpProtocol(q), p.baseUrl, q.baseUrl, "/api/message");
    }
  }

  /** The websocket handshake: the endpoint and the `x-client-id` header. */
  datatype DialRequest = DialRequest(url: string, clientIdHeader: string)

  /** The envelope SendMessageAsync writes for a request. */
  function OutgoingEnvelope(request: OutgoingMessageReq): BridgeMessage<OutgoingMessageReq>
  {
    BridgeMessage(TypeOutgoingMessageReq, request.requestId, request)
  }

  /** The JSON an outgoing envelope is written as. */
  function MarshalEnvelope(m: BridgeMessage<OutgoingMessageReq>): BridgeMessage<OutgoingMessageReqJson>
  {
    BridgeMessage(m.msgType, m.requestId, MarshalReq(m.body))
  }

  /** The written envelope has the outgoing-request tag and carries the
      request's correlation ID in its own field; together with the body it
      determines the request entirely, though the body alone does not carry
      the ID. */
  lemma OutgoingEnvelopeCorrelates(request: OutgoingMessageReq, other: OutgoingMessageReq)
    ensures MarshalEnvelope(OutgoingEnvelope(request)).msgType == TypeOutgoingMessageReq
    ensures MarshalEnvelope(OutgoingEnvelope(request)).requestId == request.requestId
    ensures MarshalEnvelope(OutgoingEnvelope(request)) == MarshalEnvelope(OutgoingEnvelope(other)) <==>
              request == other
  {
  }

  /** The body of the reader loop for a frame that does not end it: the
      handler call the routing rules `Route` pick for the frame's envelope
      and tag; other frame kinds are ignored. */
  method HandleFrame(frame: Frame) returns (call: Option<HandlerCall>)
    requires !IsTerminal(frame)
    // A frame whose envelope does not decode is treated as an incoming message.
    ensures frame.TextFrame? && frame.envelope.Err? ==>
              call == Some(IncomingCall(None, Some(DecodeMessageFailed(frame.envelope.error))))
    // The response handler is called exactly for the response tag ...
    ensures (call.Some? && call.value.ResponseCall?) <==>
              frame.TextFrame? && frame.envelope.Ok? && frame.envelope.value.msgType == TypeOutgoingMessageRes
    // ... with the response, or with nil and an error when the body does not decode.
    ensures frame.TextFrame? && frame.envelope.Ok? && frame.envelope.value.msgType == TypeOutgoingMessageRes ==>
              call == match frame.envelope.value.body.asResponse
                      case Ok(j) => Some(ResponseCall(Some(UnmarshalRes(j)), None))
                      case Err(c) => Some(ResponseCall(None, Some(UnmarshalMessageFailed(c))))
    // The incoming-message tag calls the incoming handler with the message or an error.
    ensures frame.TextFrame? && frame.envelope.Ok? && frame.envelope.value.msgType == TypeIncomingMessageReq ==>
              call == match frame.envelope.value.body.asIncoming
                      case Ok(m) => Some(IncomingCall(Some(m), None))
                      case Err(c) => Some(IncomingCall(None, Some(UnmarshalMessageFailed(c))))
    // The error tag calls the incoming handler with nil and "unknown error".
    ensures frame.TextFrame? && frame.envelope.Ok? && frame.envelope.value.msgType == TypeErrorRes ==>
              call == Some(IncomingCall(None, Some(UnknownError)))
    // Other tags and non-text frames call nothing.
    ensures call.None? <==>
              !frame.TextFrame? ||
              (frame.envelope.Ok? && (frame.envelope.value.msgType.TypeOutgoingMessageReq? ||
                                      frame.envelope.value.msgType.TypeOther?))
    // The same call the routing rules give, which the reader loop's proof uses.
    ensures call == Route(frame)
  {
    call := Route(frame);
    RoutingTable(frame);
  }

  /** A connection with the hub. The handler slots are public and may be
      replaced by the caller; `written` is the sequence of frames written to
      the websocket so far. */
  class Connection {
    const params: ConnectionParams
    var incomingMessageHandler: IncomingMessageHandlerFunc
    var outgoingMessageResponseHandler: OutgoingMessageResponseHandlerFunc
    var connectionClosureHandler: ConnectionClosureHandlerFunc
    var written: seq<BridgeMessage<OutgoingMessageReqJson>>

    /** The connection abstraction over a dialled websocket, with the three
        default handlers installed. */
    constructor (params: ConnectionParams)
      ensures this.params == params
      ensures incomingMessageHandler == DefaultIncomingMessageHandler
      ensures outgoingMessageResponseHandler == DefaultOutgoingMessageResponseHandler
      ensures connectionClosureHandler == DefaultConnectionClosureHandler
      ensures written == []
    {
      this.params := params;
      incomingMessageHandler := DefaultIncomingMessageHandler;
      outgoingMessageResponseHandler := DefaultOutgoingMessageResponseHandler;
      connectionClosureHandler := DefaultConnectionClosureHandler;
      written := [];
    }

    /** What the installed handler does for one call. */
    function Effect(call: HandlerCall): seq<string>
      reads this
    {
      match call
      case IncomingCall(m, e) => incomingMessageHandler(m, e)
      case ResponseCall(r, e) => outgoingMessageResponseHandler(r, e)
      case ClosureCall(c) => connectionClosureHandler(c)
    }

    /** What the installed handlers do for a sequence of calls, in order. */
    function Effects(calls: seq<HandlerCall>): seq<string>
      reads this
    {
      if calls == [] then [] else Effect(calls[0]) + Effects(calls[1..])
    }

    lemma {:induction false} EffectsAppend(a: seq<HandlerCall>, b: seq<HandlerCall>)
      ensures Effects(a + b) == Effects(a) + Effects(b)
    {
      if a == [] {
        assert a + b == b;
      } else {
        assert (a + b)[1..] == a[1..] + b;
        EffectsAppend(a[1..], b);
      }
    }

    /** With the default handlers installed, the handlers write exactly one
        line over a whole run when it ended on a read error and none otherwise. */
    lemma {:induction false} DefaultHandlersReportOnlyReadErrors(frames: seq<Frame>)
      requires incomingMessageHandler == DefaultIncomingMessageHandler
      requires outgoingMessageResponseHandler == DefaultOutgoingMessageResponseHandler
      requires connectionClosureHandler == DefaultConnectionClosureHandler
      ensures |Effects(ReaderTrace(frames))| ==
                if ReaderEnd(frames).Terminated? && ReaderEnd(frames).cond.Some? then 1 else 0
    {
      if frames != [] && !IsTerminal(frames[0]) {
        DefaultHandlersReportOnlyReadErrors(frames[1..]);
        var head := OptionToSeq(Route(frames[0]));
        EffectsAppend(head, ReaderTrace(frames[1..]));
        if head != [] {
          assert Effects(head) == Effect(head[0]) + Effects([]);
        }
      }
    }

    /** Sends a request over the websocket without waiting for its response:
        the request is wrapped in an outgoing-request envelope carrying its
        correlation ID. `writeFailure` is the outcome of the websocket write. */
    method SendMessageAsync(request: OutgoingMessageReq, writeFailure: Option<string>) returns (err: Option<Error>)
      modifies this`written
      ensures writeFailure.None? ==>
                err.None? && written == old(written) + [MarshalEnvelope(OutgoingEnvelope(request))]
      ensures writeFailure.Some? ==>
                err == Some(WriteMessageFailed(writeFailure.value)) && written == old(written)
    {
      var message := OutgoingEnvelope(request);
      var messageBytes := MarshalEnvelope(message);
      if writeFailure.Some? {
        return Some(WriteMessageFailed(writeFailure.value));
      }
      written := written + [messageBytes];
      return None;
    }

    /** The reader loop over the frames the websocket yields: each frame is
        routed to a handler, until a read error or a close frame stops the loop
        and the closure handler is called with the terminating condition.
        Returns the handler calls, what the handlers did, and the reader's
        state; `Running` means the frames ran out while the loop still waits
        for the next one. */
    method WebsocketMessageReader(frames: seq<Frame>) returns (calls: seq<HandlerCall>, output: seq<string>, state: ReaderState)
      ensures calls == ReaderTrace(frames)
      ensures state == ReaderEnd(frames)
      ensures output == Effects(calls)
    {
      calls, output := [], [];
      var unread := frames;
      var closed := false;
      var cond: Option<Error> := None;
      while unread != [] && !closed
        invariant !closed ==> ReaderTrace(frames) == calls + ReaderTrace(unread)
        invariant !closed ==> ReaderEnd(frames) == ReaderEnd(unread)
        invariant closed ==> ReaderTrace(frames) == calls + [ClosureCall(cond)]
        invariant closed ==> ReaderEnd(frames) == Terminated(cond)
        invariant output == Effects(calls)
        decreases |unread|
      {
        var frame := unread[0];
        if frame.ReadError? {
          closed, cond := true, Some(ReadMessageFailed(frame.cause));
        } else if frame.CloseFrame? {
          closed, cond := true, None;
        } else {
          var call := HandleFrame(frame);
          var handled := OptionToSeq(call);
          ReaderContinues(frames, calls, unread);
          EffectsAppend(calls, handled);
          output := output + Effects(handled);
          calls := calls + handled;
        }
        unread := unread[1..];
      }
      if closed {
        // The deferred closure handler runs once, after the loop.
        EffectsAppend(calls, [ClosureCall(cond)]);
        output := output + connectionClosureHandler(cond);
        calls := calls + [ClosureCall(cond)];
        state := Terminated(cond);
      } else {
        state := Running;
      }
    }
  }

  /** Creates a connection: dials the websocket endpoint with the client ID in
      the `x-client-id` header and, on success, installs the default handlers.
      `dial` is the hub's answer to the handshake: nil or the failure. */
  method NewConnection(params: ConnectionParams, dial: DialRequest -> Option<string>)
    returns (conn: Connection?, err: Option<Error>)
    ensures var failure := dial(DialRequest(BridgeEndpoint(params), params.clientId));
            failure.Some? ==> conn == null && err == Some(DialFailed(failure.value))
    ensures var failure := dial(DialRequest(BridgeEndpoint(params), params.clientId));
            failure.None? ==>
              err.None? && conn != null && fresh(conn) && conn.params == params && conn.written == [] &&
              conn.incomingMessageHandler == DefaultIncomingMessageHandler &&
              conn.outgoingMessageResponseHandler == DefaultOutgoingMessageResponseHandler &&
              conn.connectionClosureHandler == DefaultConnectionClosureHandler
  {
    var endpoint := BridgeEndpoint(params);
    var failure := dial(DialRequest(endpoint, params.clientId));
    if failure.Some? {
      return null, Some(DialFailed(failure.value));
    }
    conn := new Connection(params);
    err := None;
  }

  /** The HTTP request SendMessage issues. */
  datatype HttpRequest = HttpRequest(httpMethod: string, url: string, requestIdHeader: string, body: OutgoingMessageReqJson)

  /** The hub's HTTP answer: the decoding of its body and its `x-request-id` header. */
  datatype HttpResponse = HttpResponse(body: Result<OutgoingMessageResJson, string>, requestIdHeader: string)

  /** The request SendMessage posts for a request whose sender is already set. */
  function MessageRequest(request: OutgoingMessageReq, params: ConnectionParams): HttpRequest
  {
    HttpRequest("POST", MessageEndpoint(params), request.requestId, MarshalReq(request))
  }

  /** The posted request asserts the client as sender, targets the message
      endpoint, and carries the correlation ID in the header only. */
  lemma MessageRequestShape(request: OutgoingMessageReq, params: ConnectionParams)
    ensures var h := MessageRequest(request.(senderId := params.clientId), params);
            h.body.senderId == params.clientId && h.requestIdHeader == request.requestId &&
            h.body.receiverIds == request.receiverIds && h.body.message == request.message &&
            h.url == HttpProtocol(params) + "://" + params.baseUrl + "/api/message"
  {
  }

  /** Sends a message synchronously, without a connection. The sender is set to
      the client ID (the caller's request is updated; `sent` is its new value).
      A response whose code is not OK becomes an error built from its reason;
      an OK response is returned with its request ID taken from the
      `x-request-id` header. `hub` is the HTTP exchange. */
  method SendMessage(request: OutgoingMessageReq, params: ConnectionParams,
                     hub: HttpRequest -> Result<HttpResponse, string>)
    returns (sent: OutgoingMessageReq, result: Result<OutgoingMessageRes, Error>)
    ensures sent.senderId == params.clientId && sent.(senderId := request.senderId) == request
    ensures var reply := hub(MessageRequest(sent, params));
            result.Ok? <==> reply.Ok? && reply.value.body.Ok? && reply.value.body.value.code == CodeOK
    ensures var reply := hub(MessageRequest(sent, params));
            result.Ok? ==> MarshalRes(result.value) == reply.value.body.value &&
                           result.value.requestId == reply.value.requestIdHeader
    ensures var reply := hub(MessageRequest(sent, params));
            reply.Ok? && reply.value.body.Ok? && reply.value.body.value.code != CodeOK ==>
              result == Err(RequestFailed(reply.value.body.value.reason))
    ensures var reply := hub(MessageRequest(sent, params));
            reply.Err? ==> result == Err(HttpRequestFailed(reply.error))
    ensures var reply := hub(MessageRequest(sent, params));
            reply.Ok? && reply.value.body.Err? ==> result == Err(ResponseBodyFailed(reply.value.body.error))
  {
    sent := request.(senderId := params.clientId);
    var httpRequest := MessageRequest(sent, params);
    var response := hub(httpRequest);
    if response.Err? {
      return sent, Err(HttpRequestFailed(response.error));
    }
    if response.value.body.Err? {
      return sent, Err(ResponseBodyFailed(response.value.body.error));
    }
    var outMessageRes := UnmarshalRes(response.value.body.value);
    if outMessageRes.code != CodeOK {
      return sent, Err(RequestFailed(outMessageRes.reason));
    }
    outMessageRes := outMessageRes.(requestId := response.value.requestIdHeader);
    result := Ok(outMessageRes);
  }

  /** Fills a missing request ID from the header, leaving a present one alone. */
  function FillRequestId(res: OutgoingMessageRes, header: string): (r: OutgoingMessageRes)
    ensures r.requestId == (if res.requestId == "" then header else res.requestId)
    ensures r.(requestId := res.requestId) == res
  {
    if res.requestId == "" then res.(requestId := header) else res
  }

  /** SendMessage overwrites the request ID unconditionally; since a decoded
      body never carries one, this is the same as filling it only when absent. */
  lemma OverwriteIsFallback(j: OutgoingMessageResJson, header: string)
    ensures UnmarshalRes(j).(requestId := header) == FillRequestId(UnmarshalRes(j), header)
  {
  }

  /** "alice" sends "hi" to "bob" synchronously; the hub accepts it and she
      gets its report back, correlated by the header. */
  method SyncScenario()
  {
    var params := ConnectionParams("alice", "hub.example", true);
    var report := map["bob" := [DeliveryEntry("bob", "", CodeOK, "")]];
    var request := OutgoingMessageReq("", ["bob"], "hi", "r1");
    var hub := (h: HttpRequest) => Ok(HttpResponse(Ok(OutgoingMessageResJson(CodeOK, "", report)), "r1"));
    var sent, result := SendMessage(request, params, hub);
    assert sent.senderId == "alice";
    assert result == Ok(OutgoingMessageRes(CodeOK, "", report, "r1"));
  }

  /** Over a connection "alice" sends a request correlated by "r1"; its
      response arrives, then a malformed frame, then a read error that ends
      the session, after which nothing more is dispatched. */
  method AsyncScenario(conn: Connection)
    modifies conn
  {
    var request := OutgoingMessageReq("alice", ["bob"], "hi", "r1");
    var writeErr := conn.SendMessageAsync(request, None);
    assert conn.written[|conn.written| - 1] == BridgeMessage(TypeOutgoingMessageReq, "r1", MarshalReq(request));

    var report := map["bob" := [DeliveryEntry("bob", "", CodeOK, "")]];
    var response := BridgeMessage(TypeOutgoingMessageRes, "r1",
                                  RawBody(Err("not an incoming message"), Ok(OutgoingMessageResJson(CodeOK, "", report))));
    var frames := [TextFrame(Ok(response)), TextFrame(Err("invalid character")), ReadError("connection reset"),
                   TextFrame(Ok(response))];
    var calls, output, state := conn.WebsocketMessageReader(frames);
    assert frames[1..][1..] == frames[2..];
    assert ReaderTrace(frames[2..]) == [ClosureCall(Some(ReadMessageFailed("connection reset")))];
    assert ReaderEnd(frames[2..]) == Terminated(Some(ReadMessageFailed("connection reset")));
    assert calls == [ResponseCall(Some(OutgoingMessageRes(CodeOK, "", report, "")), None),
                     IncomingCall(None, Some(DecodeMessageFailed("invalid character"))),
                     ClosureCall(Some(ReadMessageFailed("connection reset")))];
    assert state == Terminated(Some(ReadMessageFailed("connection reset")));
  }
}
