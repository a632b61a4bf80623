/** The records of lib/helper_types.go, the envelope tags that lib/connection.go
    switches on, the library's error values and the three handler signatures. */
module LibTypes {
  import opened Wrappers

  /** What a connection needs: the client it belongs to, the hub's address
      without scheme, and whether the hub is reached over TLS. */
  datatype ConnectionParams = ConnectionParams(clientId: string, baseUrl: string, isTlsEnabled: bool)

  /** The `type` field of an envelope, as the dispatch loop distinguishes it.
      TypeOther stands for any tag string that is none of the four known ones. */
  datatype MessageType =
    | TypeIncomingMessageReq
    | TypeOutgoingMessageReq
    | TypeOutgoingMessageRes
    | TypeErrorRes
    | TypeOther(tag: string)

  /** The envelope of every frame on the bridge: a type tag, the correlation key
      between an outgoing request and its response, and a body. */
  datatype BridgeMessage<B> = BridgeMessage(msgType: MessageType, requestId: string, body: B)

  /** A message pushed to this client by the hub. */
  datatype IncomingMessageReq = IncomingMessageReq(senderId: string, message: string)

  /** A message this client sends. Its requestId is tagged `json:"-"`: it is
      never serialised and travels only in an envelope field or a header. */
  datatype OutgoingMessageReq =
    OutgoingMessageReq(senderId: string, receiverIds: seq<string>, message: string, requestId: string)

  /** The JSON object an OutgoingMessageReq serialises to. */
  datatype OutgoingMessageReqJson = OutgoingMessageReqJson(senderId: string, receiverIds: seq<string>, message: string)

  /** The delivery outcome at one bridge of one receiver. */
  datatype DeliveryEntry = DeliveryEntry(clientId: string, bridgeId: string, code: string, reason: string)

  /** The hub's answer to a sent message. `code` is CodeOK when the request was
      processable; otherwise delivery was not attempted and `reason` says why.
      `report` maps each receiver to its per-bridge delivery entries. */
  datatype OutgoingMessageRes =
    OutgoingMessageRes(code: string, reason: string, report: map<string, seq<DeliveryEntry>>, requestId: string)

  /** The JSON object an OutgoingMessageRes is read from (no request_id field). */
  datatype OutgoingMessageResJson =
    OutgoingMessageResJson(code: string, reason: string, report: map<string, seq<DeliveryEntry>>)

  /** The code of a processable request. */
  const CodeOK: string := "OK"

  /** The fields json.Marshal writes for an outgoing request. */
  function MarshalReq(req: OutgoingMessageReq): OutgoingMessageReqJson
  {
    OutgoingMessageReqJson(req.senderId, req.receiverIds, req.message)
  }

  /** The fields json.Marshal writes for a response. */
  function MarshalRes(res: OutgoingMessageRes): OutgoingMessageResJson
  {
    OutgoingMessageResJson(res.code, res.reason, res.report)
  }

  /** The response json.Unmarshal produces from a JSON object: the request ID is
      never read, so it keeps Go's zero value. */
  function UnmarshalRes(j: OutgoingMessageResJson): (res: OutgoingMessageRes)
    ensures res.requestId == ""
    ensures MarshalRes(res) == j
  {
    OutgoingMessageRes(j.code, j.reason, j.report, "")
  }

  /** The request ID is not part of a serialised request: two requests
      serialise alike exactly when they differ at most in their request IDs. */
  lemma RequestIdNotSerialised(a: OutgoingMessageReq, b: OutgoingMessageReq)
    ensures MarshalReq(a) == MarshalReq(b) <==> a.(requestId := b.requestId) == b
  {
  }

  /** Serialising a response and reading it back loses exactly its request ID. */
  lemma ResponseRoundTrip(res: OutgoingMessageRes)
    ensures UnmarshalRes(MarshalRes(res)) == res.(requestId := "")
    ensures UnmarshalRes(MarshalRes(res)) == res <==> res.requestId == ""
  {
  }

  /** The errors the library produces, one per `fmt.Errorf` / `errors.New` site,
      carrying the text of the error they wrap. */
  datatype Error =
    | DecodeMessageFailed(cause: string)     // a text frame is not an envelope
    | UnmarshalMessageFailed(cause: string)  // an envelope body is not the tag's payload
    | UnknownError                           // the hub answered with an error envelope
    | ReadMessageFailed(cause: string)       // reading from the websocket failed
    | DialFailed(cause: string)              // the websocket handshake failed
    | WriteMessageFailed(cause: string)      // writing to the websocket failed
    | HttpRequestFailed(cause: string)       // the HTTP exchange failed
    | ResponseBodyFailed(cause: string)      // the HTTP body is not a response
    | RequestFailed(reason: string)          // the hub refused the request
    | ReadAllFailed(cause: string)           // io.ReadAll failed inside anyToBytes
    | JsonMarshalFailed(cause: string)       // json.Marshal failed inside anyToBytes

  /** The message `Error()` returns for each error. */
  function ErrorText(e: Error): string
  {
    match e
    case DecodeMessageFailed(c) => "failed to decode message: " + c
    case UnmarshalMessageFailed(c) => "failed to unmarshal message: " + c
    case UnknownError => "unknown error"
    case ReadMessageFailed(c) => "error in ReadMessage: " + c
    case DialFailed(c) => "error in websocket.Dial: " + c
    case WriteMessageFailed(c) => "failed to write message: " + c
    case HttpRequestFailed(c) => "failed to execute http request: " + c
    case ResponseBodyFailed(c) => "failed to get response body: " + c
    case RequestFailed(r) => "request failed: " + r
    case ReadAllFailed(c) => "error in io.ReadAll call: " + c
    case JsonMarshalFailed(c) => "error in json.Marshal call: " + c
  }

  /* The handler signatures. A handler is caller code; its effect is modelled
     as the lines it writes to the console, the only effect the handlers of
     this repository have. */

  /** Handles an incoming message, or an error met while receiving or decoding one. */
  type IncomingMessageHandlerFunc = (Option<IncomingMessageReq>, Option<Error>) -> seq<string>

  /** Handles the response to an outgoing message, or an error met decoding it. */
  type OutgoingMessageResponseHandlerFunc = (Option<OutgoingMessageRes>, Option<Error>) -> seq<string>

  /** Handles the closure of the connection; the argument says why it closed. */
  type ConnectionClosureHandlerFunc = Option<Error> -> seq<string>

  /** One invocation of a handler, as the dispatch loop makes it. */
  datatype HandlerCall =
    | IncomingCall(message: Option<IncomingMessageReq>, err: Option<Error>)
    | ResponseCall(response: Option<OutgoingMessageRes>, err: Option<Error>)
    | ClosureCall(cond: Option<Error>)
}
