/** lib/helper_funcs.go: the default handlers, the choice of URL scheme and the
    byte conversion behind the library's JSON helpers. */
module LibFuncs {
  import opened Wrappers
  import opened LibTypes

  /** The default handler for incoming messages does nothing. */
  function DefaultIncomingMessageHandler(message: Option<IncomingMessageReq>, err: Option<Error>): seq<string>
  {
    []
  }

  /** The default handler for responses does nothing. */
  function DefaultOutgoingMessageResponseHandler(response: Option<OutgoingMessageRes>, err: Option<Error>): seq<string>
  {
    []
  }

  /** The default closure handler reports, in red, a closure that carries an
      error, and stays silent on a clean closure. */
  function DefaultConnectionClosureHandler(cond: Option<Error>): seq<string>
  {
    match cond
    case None => []
    case Some(e) => ["Connection closed with error: " + ErrorText(e)]
  }

  /** The default incoming and response handlers have no effect whatever they
      are given; the default closure handler writes exactly one line when the
      closure carries an error and none otherwise. */
  lemma DefaultHandlersEffects(m: Option<IncomingMessageReq>, r: Option<OutgoingMessageRes>,
                               err: Option<Error>, cond: Option<Error>)
    ensures DefaultIncomingMessageHandler(m, err) == []
    ensures DefaultOutgoingMessageResponseHandler(r, err) == []
    ensures |DefaultConnectionClosureHandler(cond)| == (if cond.Some? then 1 else 0)
  {
  }

  /** The websocket scheme: secure exactly when TLS is enabled. */
  function WebsocketProtocol(params: ConnectionParams): (scheme: string)
    ensures scheme == "wss" <==> params.isTlsEnabled
    ensures scheme == "ws" <==> !params.isTlsEnabled
  {
    if params.isTlsEnabled then "wss" else "ws"
  }

  /** The HTTP scheme: secure exactly when TLS is enabled. */
  function HttpProtocol(params: ConnectionParams): (scheme: string)
    ensures scheme == "https" <==> params.isTlsEnabled
    ensures scheme == "http" <==> !params.isTlsEnabled
  {
    if params.isTlsEnabled then "https" else "http"
  }

  /** A scheme that runs over TLS. */
  predicate IsSecureScheme(scheme: string)
  {
    scheme == "wss" || scheme == "https"
  }

  /** For every params value the two schemes agree on security. */
  lemma ProtocolsAgree(params: ConnectionParams)
    ensures IsSecureScheme(WebsocketProtocol(params)) == IsSecureScheme(HttpProtocol(params))
    ensures IsSecureScheme(WebsocketProtocol(params)) == params.isTlsEnabled
  {
  }

  /** The dynamic types anyToBytes distinguishes. A Go string is given by its
      bytes. The io.Reader and default cases carry the outcome of io.ReadAll and
      of json.Marshal respectively, which the model does not compute. */
  datatype AnyInput =
    | ByteSlice(bytes: seq<uint8>)
    | GoString(bytes: seq<uint8>)
    | Reader(readAll: Result<seq<uint8>, string>)
    | OtherValue(marshalled: Result<seq<uint8>, string>)

  /** Converts an input to bytes: byte slices and strings pass through
      unchanged, readers are read to the end, anything else is marshalled. */
  function AnyToBytes(input: AnyInput): (r: Result<seq<uint8>, Error>)
    ensures (input.ByteSlice? || input.GoString?) ==> r == Ok(input.bytes)
    ensures r.Err? <==> (input.Reader? && input.readAll.Err?) || (input.OtherValue? && input.marshalled.Err?)
  {
    match input
    case ByteSlice(b) => Ok(b)
    case GoString(b) => Ok(b)
    case Reader(Ok(b)) => Ok(b)
    case Reader(Err(c)) => Err(ReadAllFailed(c))
    case OtherValue(Ok(b)) => Ok(b)
    case OtherValue(Err(c)) => Err(JsonMarshalFailed(c))
  }
}
