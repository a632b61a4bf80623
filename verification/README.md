# rosenbridge-cli client library, modelled in Dafny

This project models the protocol logic of the Rosenbridge client library
(`lib`) and the client-ID validator of the command line (`cmd`):

- the dispatch loop that reads websocket frames and routes each decoded
  envelope to the incoming-message handler, the response handler or nowhere,
  and calls the closure handler once when the stream ends (`dispatch.dfy` for
  the routing rules as functions and lemmas, `connection.dfy` for the loop
  itself as a method of the `Connection` class);
- the synchronous send (`SendMessage`) without its HTTP call, the asynchronous
  send (`SendMessageAsync`) that wraps a request in an outgoing-request
  envelope, the two endpoints, and `NewConnection` with its default handlers;
- the records and the `json:"-"` request IDs, the frame type tags and
  persistence criteria with their wire strings, the scheme choice and the
  byte conversion of `anyToBytes`;
- `checkClientID`: length 1 to 100 bytes and every character in
  `[a-zA-Z0-9-@._]`, with the bracket expression parsed as Go's regexp package
  parses it.

The network is a parameter everywhere: the frames `ReadMessage` returns are a
finite sequence given to the reader, the websocket handshake and the HTTP
exchange are functions given to `NewConnection` and `SendMessage`, and the
outcome of a websocket write is given to `SendMessageAsync`. JSON decoding is
not computed: a text frame carries the result of decoding it as an envelope,
and an envelope body carries the results of decoding it as each payload type.
A handler's effect is modelled as the console lines it writes.

`SyncScenario` and `AsyncScenario` (connection.dfy) are clients that walk
through one session, a synchronous send and then a connection that receives a
response, a malformed frame and a read error, relying only on the contracts.

Points where the library's behaviour may be unexpected:

- a body that does not decode under the response tag goes to the response
  handler, with a nil response and the decode error;
- an envelope whose tag is the outgoing-request tag or an unknown string calls
  no handler, and the loop reads the next frame;
- the closure condition: the comments at lib/connection.go:153 and :160 say
  the closure handler receives the read error (or nil for a close frame), but
  the deferred `recover()` of lib/connection.go:146 runs before any panic, so
  the code always passes nil and neither panic is recovered. This is the one
  place where the model follows the intent and not the code: `Dispatch.ReaderTrace`
  is the intended trace and `Dispatch.ReaderTraceAsWritten` the trace as
  written (see Findings);
- `SendMessage` overwrites the response's request ID with the `x-request-id`
  header unconditionally (which agrees with "fill it when absent", since a
  decoded response body never carries one: `OverwriteIsFallback`).

The identifiers `typeIncomingMessageReq`, `typeOutgoingMessageReq`,
`typeOutgoingMessageRes`, `typeErrorRes` and `codeOK` that
lib/connection.go uses are not defined in the files of this model. The tags are
the abstract enumeration `MessageType` (with `TypeOther` for any other tag
string), and `codeOK` is taken to be `"OK"`.

## Model

| member | source | states |
|---|---|---|
| `LibParams.ParseFrameType` | lib/helper_params.go:5-7 | a string decodes to a tag only if it is that tag's wire string |
| `LibParams.FrameTypeStringInjective` | lib/helper_params.go:5-7 | "INCOMING_MESSAGE", "OUTGOING_MESSAGE" and "OUTGOING_MESSAGE_RESPONSE" are pairwise distinct |
| `LibParams.FrameTypeRoundTrip` | lib/helper_params.go:5-7 | decoding a tag's wire string gives the tag back, and only its wire string decodes to it |
| `LibParams.ParsePersistence` | lib/helper_params.go:12-16 | a string decodes to a persistence criterion only if it is that criterion's wire string |
| `LibParams.PersistenceStringInjective` | lib/helper_params.go:12-16 | "true", "false" and "if_offline" are pairwise distinct |
| `LibParams.PersistenceRoundTrip` | lib/helper_params.go:12-16 | decode(encode(p)) == p, and a string decodes to nothing exactly when it is none of the three encodings |
| `LibTypes.UnmarshalRes` | lib/helper_types.go:48-69 | a response read from JSON has an empty request ID and re-serialises to the same JSON |
| `LibTypes.RequestIdNotSerialised` | lib/helper_types.go:36-46 | two requests serialise alike exactly when they differ at most in their request IDs |
| `LibTypes.ResponseRoundTrip` | lib/helper_types.go:48-69 | serialising a response and reading it back loses exactly its request ID |
| `LibFuncs.DefaultHandlersEffects` | lib/helper_funcs.go:13-24 | the default incoming and response handlers do nothing; the default closure handler writes one line iff the condition is non-nil |
| `LibFuncs.WebsocketProtocol` | lib/helper_funcs.go:27-32 | the scheme is "wss" iff TLS is enabled and "ws" iff it is not |
| `LibFuncs.HttpProtocol` | lib/helper_funcs.go:35-40 | the scheme is "https" iff TLS is enabled and "http" iff it is not |
| `LibFuncs.ProtocolsAgree` | lib/helper_funcs.go:27-40 | both schemes are secure or both plain, and secure exactly when TLS is enabled |
| `LibFuncs.AnyToBytes` | lib/helper_funcs.go:45-68 | byte slices and strings come back unchanged; an error arises only from a failed read or marshal |
| `Dispatch.StopsAtFirstTerminal` | lib/connection.go:150-161 | the loop terminates exactly when some frame is a read error or a close frame, and stops at the first one |
| `Dispatch.ClosureExactlyOnceAtEnd` | lib/connection.go:146 | the closure handler is called exactly once, last, when the loop terminated, and never while it runs |
| `Dispatch.ClosureConditionMatchesCause` | lib/connection.go:150-161 | the closure condition is the read error for a read error and nil for a close frame |
| `Dispatch.DispatchInOrder` | lib/connection.go:150-199 | frames are dispatched in input order: the trace of p + q is the trace of p followed by that of q while running |
| `Dispatch.NothingAfterTermination` | lib/connection.go:150-161 | no frame after the terminating one is dispatched |
| `Dispatch.CallsAreWellFormed` | lib/connection.go:162-193 | a frame that does not end the loop causes at most one call, a whole run no more calls than frames, and every incoming or response call carries exactly one of payload and error |
| `Dispatch.ResponsesCarryNoRequestId` | lib/connection.go:180-187 | a response delivered to the response handler has an empty request ID |
| `Dispatch.RoutingTable` | lib/connection.go:162-198 | undecodable frame, incoming tag, response tag (with or without body error), error tag and ignored kinds, each to its handler with the stated arguments |
| `Dispatch.AsWrittenLosesReadError` | lib/connection.go:146 | the source's trace differs from the intended one exactly when the loop ends on a read error |
| `Dispatch.ReadErrorReachesClosureAsNil` | lib/connection.go:146 | on a read error the source passes nil to the closure handler where the error was intended |
| `LibConnection.EndpointsDetermineParams` | lib/connection.go:34 | `{ws,wss}://{base}/api/bridge` and `{http,https}://{base}/api/message` determine TLS choice and base exactly |
| `LibConnection.OutgoingEnvelopeCorrelates` | lib/connection.go:114-118 | the written envelope has the outgoing-request tag and the request's ID, and determines the request |
| `LibConnection.HandleFrame` | lib/connection.go:162-198 | an undecodable envelope calls the incoming handler with an error; the response handler is called iff the tag is the response tag, with the response or nil and an error; the incoming tag gives the message or an error; the error tag gives nil and "unknown error"; nothing is called iff the frame is not text or its tag is the outgoing-request or an unknown tag |
| `LibConnection.Connection.constructor` | lib/connection.go:48-54 | a new connection has the given params, the three default handlers and nothing written |
| `LibConnection.Connection.DefaultHandlersReportOnlyReadErrors` | lib/helper_funcs.go:13-24 | with the default handlers a whole run writes one line iff it ended on a read error |
| `LibConnection.Connection.SendMessageAsync` | lib/connection.go:113-131 | a successful write appends the envelope to what was written; a failed one returns the write error and writes nothing |
| `LibConnection.Connection.WebsocketMessageReader` | lib/connection.go:144-200 | the loop's handler calls, final state and handler output are those of the routing rules |
| `LibConnection.NewConnection` | lib/connection.go:30-59 | dials the bridge endpoint with the client ID header; a failure returns the dial error and no connection, success a fresh connection with default handlers |
| `LibConnection.MessageRequestShape` | lib/connection.go:66-86 | the posted request has the client as sender, the request ID only in the header, and the message endpoint as URL |
| `LibConnection.SendMessage` | lib/connection.go:63-108 | the sender is the client ID; the result is OK iff the exchange and decoding succeed with code OK; a non-OK code yields an error from the reason; an OK response carries the header's request ID |
| `LibConnection.OverwriteIsFallback` | lib/connection.go:106 | overwriting the request ID from the header equals filling it only when absent |
| `Validation.ClientIdClassItems` | cmd/validation_params.go:16 | the bracket expression parses into a-z, A-Z, 0-9 and the literals '-', '@', '.', '_' |
| `Validation.ClientIdClassIsExact` | cmd/validation_params.go:16 | the class admits exactly ASCII letters, digits, '-', '@', '.' and '_' |
| `Validation.PatternMatchesAllBytes` | cmd/validation_params.go:16 | the anchored starred pattern matches exactly when every byte is in the class, the empty input included |
| `Validation.CheckClientID` | cmd/validation_funcs.go:4-15 | the result is nil iff 1 <= length <= 100 bytes and every byte is in the class; any failure is errClientID |
| `Validation.EmptyRejectedOnlyByLength` | cmd/validation_params.go:10-16 | the pattern accepts the empty ID; the length bound rejects it |
| `Validation.OutOfBoundsRejected` | cmd/validation_funcs.go:7-9 | an ID shorter than 1 or longer than 100 bytes is rejected whatever its content |
| `Validation.DisallowedByteRejected` | cmd/validation_funcs.go:11-13 | an ID with a byte outside the class, any non-ASCII byte included, is rejected |

## Findings

| source | as written | input that shows it | evidently intended | confidence | as-written member | corrected member |
|---|---|---|---|---|---|---|
| lib/connection.go:146 | `defer conn.ConnectionClosureHandler(ctx, recover())` evaluates `recover()` when the defer statement runs, before any panic, so the closure handler always receives nil, and the later panic is never recovered: the panic carrying the wrapped read error at :154 and `panic(nil)` after a close frame at :161 both end the process once the handler has run. The handler traces differ only on a read error; on a close frame they agree, but the process still ends | a stream whose first read fails: `[ReadError("EOF")]` (the handler gets nil, not the error); a stream `[CloseFrame]` (same handler call, but the process still panics) | the closure handler receives the read error, or nil for a close frame, and the reader ends without taking the process down | high (Go evaluates deferred call arguments at the defer statement); not executed | `Dispatch.ReaderTraceAsWritten` (with `Dispatch.AsWrittenLosesReadError`, `Dispatch.ReadErrorReachesClosureAsNil`) | `Dispatch.ReaderTrace` (with `Dispatch.ClosureConditionMatchesCause`, used by `LibConnection.Connection.WebsocketMessageReader`) |

## Left out

- Websocket dialling, `ReadMessage`, `WriteMessage`, `http.Client.Do` and `Close`: network I/O; their outcomes are parameters (frames, dial and write outcomes, the HTTP exchange), and `Close` is not modelled.
- JSON encoding and decoding and `anyToAny`: library calls; decode results are given with each frame, and serialisation is modelled only as which fields are written.
- The `io.Reader` and default cases of `anyToBytes` take the outcome of `io.ReadAll` / `json.Marshal` as given.
- The goroutine that runs the reader and any concurrent change of the handler slots: the reader is a sequential method that reads the slots as they are when it runs.
- The panic/recover control flow: the loop exits normally carrying the closure condition (see Findings for what the code as written does).
- `context.Context` parameters: they carry no modelled behaviour.
- The marshal and request-formation error paths of `SendMessage` and `SendMessageAsync`: marshalling these records cannot fail, and the URL is not parsed in the model.
- LibConnection.SendMessage: the caller's request struct is updated in place in Go; the model returns the updated request as `sent` instead, so aliasing with the caller is not captured.
- Validation.CheckClientID: the regular expression runs over UTF-8 runes; the model checks bytes, which agrees because every class member is ASCII and every byte of a non-ASCII or ill-formed rune is 128 or more.
- The console colouring of the default closure handler: the line is modelled, its colour is not.
- The retry/backoff wrapper: the code contains only a configuration default for it (cmd/cmd_root.go:40), no behaviour.
- The command-line commands, configuration loading, `printMessage` and `exitWithPrintf`, and the unused `ReceivedMessage` record in models/api.go: console and process glue outside the library.
