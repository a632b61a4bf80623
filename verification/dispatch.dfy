/** The routing rules of `websocketMessageReader` (lib/connection.go) as
    functions over a finite sequence of frames: which handler each frame
    reaches, where the loop stops, and what the closure handler receives. */
module Dispatch {
  import opened Wrappers
  import opened LibTypes

  /** The body of a text envelope, given by what decoding it as each payload
      type yields (JSON decoding itself is not modelled). */
  datatype RawBody = RawBody(asIncoming: Result<IncomingMessageReq, string>,
                             asResponse: Result<OutgoingMessageResJson, string>)

  /** One result of `ReadMessage`: a read error or a frame of some kind. A text
      frame carries the result of decoding it as an envelope. */
  datatype Frame =
    | ReadError(cause: string)
    | CloseFrame
    | TextFrame(envelope: Result<BridgeMessage<RawBody>, string>)
    | BinaryFrame
    | PingFrame
    | PongFrame
    | OtherFrame

  /** The reader's two states; Terminated carries the closure condition. */
  datatype ReaderState = Running | Terminated(cond: Option<Error>)

  /** A read error and a close frame end the loop; nothing else does. */
  predicate IsTerminal(f: Frame)
  {
    f.ReadError? || f.CloseFrame?
  }

  /** What the closure handler is meant to receive: the read error, or nil for
      a clean close. */
  function ClosureCondition(f: Frame): Option<Error>
    requires IsTerminal(f)
  {
    if f.ReadError? then Some(ReadMessageFailed(f.cause)) else None
  }

  /** The handler call a frame that does not end the loop produces, if any. */
  function Route(f: Frame): Option<HandlerCall>
    requires !IsTerminal(f)
  {
    match f
    case TextFrame(Err(c)) =>
      // The type could not be determined: treated as an incoming message.
      Some(IncomingCall(None, Some(DecodeMessageFailed(c))))
    case TextFrame(Ok(m)) =>
      (match m.msgType
       case TypeIncomingMessageReq =>
         (match m.body.asIncoming
          case Ok(msg) => Some(IncomingCall(Some(msg), None))
          case Err(c) => Some(IncomingCall(None, Some(UnmarshalMessageFailed(c)))))
       case TypeOutgoingMessageRes =>
         (match m.body.asResponse
          case Ok(j) => Some(ResponseCall(Some(UnmarshalRes(j)), None))
          case Err(c) => Some(ResponseCall(None, Some(UnmarshalMessageFailed(c)))))
       case TypeErrorRes => Some(IncomingCall(None, Some(UnknownError)))
       // Unknown message types are ignored.
       case TypeOutgoingMessageReq => None
       case TypeOther(_) => None)
    case BinaryFrame => None
    case PingFrame => None
    case PongFrame => None
    case OtherFrame => None
  }

  function OptionToSeq<T>(o: Option<T>): seq<T>
  {
    if o.Some? then [o.value] else []
  }

  /** The handler calls the reader makes on these frames, in order. */
  function ReaderTrace(frames: seq<Frame>): seq<HandlerCall>
  {
    if frames == [] then []
    else if IsTerminal(frames[0]) then [ClosureCall(ClosureCondition(frames[0]))]
    else OptionToSeq(Route(frames[0])) + ReaderTrace(frames[1..])
  }

  /** The reader's state once it has consumed these frames (or stopped). */
  function ReaderEnd(frames: seq<Frame>): ReaderState
  {
    if frames == [] then Running
    else if IsTerminal(frames[0]) then Terminated(ClosureCondition(frames[0]))
    else ReaderEnd(frames[1..])
  }

  /** The reader goes on past a frame that does not end the loop, having made
      that frame's call. */
  lemma ReaderContinues(frames: seq<Frame>, calls: seq<HandlerCall>, unread: seq<Frame>)
    requires unread != [] && !IsTerminal(unread[0])
    requires ReaderTrace(frames) == calls + ReaderTrace(unread)
    requires ReaderEnd(frames) == ReaderEnd(unread)
    ensures ReaderTrace(frames) == calls + OptionToSeq(Route(unread[0])) + ReaderTrace(unread[1..])
    ensures ReaderEnd(frames) == ReaderEnd(unread[1..])
  {
  }

  /** The index of the first frame that ends the loop, or |frames| if none does. */
  function FirstTerminal(frames: seq<Frame>): (k: nat)
    ensures k <= |frames|
    ensures k < |frames| ==> IsTerminal(frames[k])
    ensures forall j :: 0 <= j < k ==> !IsTerminal(frames[j])
  {
    if frames == [] then 0
    else if IsTerminal(frames[0]) then 0
    else 1 + FirstTerminal(frames[1..])
  }

  /** The loop stops exactly at the first read error or close frame, and ends
      with the condition that frame carries; without one it is still running. */
  lemma {:induction false} StopsAtFirstTerminal(frames: seq<Frame>)
    ensures ReaderEnd(frames).Terminated? <==> FirstTerminal(frames) < |frames|
    ensures FirstTerminal(frames) < |frames| ==>
              ReaderEnd(frames) == Terminated(ClosureCondition(frames[FirstTerminal(frames)]))
  {
    if frames != [] && !IsTerminal(frames[0]) {
      StopsAtFirstTerminal(frames[1..]);
      if FirstTerminal(frames) < |frames| {
        assert frames[1..][FirstTerminal(frames) - 1] == frames[FirstTerminal(frames)];
      }
    }
  }

  /** The closure handler is called exactly once, as the last call, when the
      loop has terminated, and never while it is still running; the call
      carries the terminating condition. */
  lemma {:induction false} ClosureExactlyOnceAtEnd(frames: seq<Frame>)
    ensures var t := ReaderTrace(frames);
            ReaderEnd(frames).Terminated? ==>
              |t| > 0 && t[|t| - 1] == ClosureCall(ReaderEnd(frames).cond) &&
              forall i :: 0 <= i < |t| - 1 ==> !t[i].ClosureCall?
    ensures var t := ReaderTrace(frames);
            ReaderEnd(frames).Running? ==> forall i :: 0 <= i < |t| ==> !t[i].ClosureCall?
  {
    if frames != [] && !IsTerminal(frames[0]) {
      ClosureExactlyOnceAtEnd(frames[1..]);
      var head := OptionToSeq(Route(frames[0]));
      var t := ReaderTrace(frames);
      assert t == head + ReaderTrace(frames[1..]);
      assert forall i :: 0 <= i < |head| ==> !t[i].ClosureCall?;
    }
  }

  /** Frames are dispatched in input order: while the loop keeps running, the
      trace of a concatenation is the concatenation of the traces. */
  lemma {:induction false} DispatchInOrder(p: seq<Frame>, q: seq<Frame>)
    requires ReaderEnd(p).Running?
    ensures ReaderTrace(p + q) == ReaderTrace(p) + ReaderTrace(q)
    ensures ReaderEnd(p + q) == ReaderEnd(q)
  {
    if p == [] {
      assert p + q == q;
    } else {
      assert (p + q)[1..] == p[1..] + q;
      DispatchInOrder(p[1..], q);
    }
  }

  /** No frame after the loop has stopped is dispatched. */
  lemma {:induction false} NothingAfterTermination(p: seq<Frame>, rest: seq<Frame>)
    requires ReaderEnd(p).Terminated?
    ensures ReaderTrace(p + rest) == ReaderTrace(p)
    ensures ReaderEnd(p + rest) == ReaderEnd(p)
  {
    assert (p + rest)[0] == p[0];
    if !IsTerminal(p[0]) {
      assert (p + rest)[1..] == p[1..] + rest;
      NothingAfterTermination(p[1..], rest);
    }
  }

  /** Each non-terminal frame causes at most one handler call, and every call
      to the incoming or response handler carries exactly one of a payload and
      an error. */
  lemma {:induction false} CallsAreWellFormed(frames: seq<Frame>)
    ensures |ReaderTrace(frames)| <= |frames|
    ensures |frames| == 1 && !IsTerminal(frames[0]) ==> |ReaderTrace(frames)| <= 1
    ensures forall c :: c in ReaderTrace(frames) ==>
              (c.IncomingCall? ==> c.message.Some? != c.err.Some?) &&
              (c.ResponseCall? ==> c.response.Some? != c.err.Some?)
  {
    if frames != [] && !IsTerminal(frames[0]) {
      CallsAreWellFormed(frames[1..]);
    }
  }

  /** Every response that reaches the response handler has an empty request ID:
      the ID is not part of the response body and the loop does not copy the
      envelope's request_id into it. */
  lemma {:induction false} ResponsesCarryNoRequestId(frames: seq<Frame>)
    ensures forall c :: c in ReaderTrace(frames) && c.ResponseCall? && c.response.Some? ==>
              c.response.value.requestId == ""
  {
    if frames != [] && !IsTerminal(frames[0]) {
      ResponsesCarryNoRequestId(frames[1..]);
    }
  }

  /** The routing table for one frame that does not end the loop. */
  lemma RoutingTable(f: Frame)
    requires !IsTerminal(f)
    // A frame whose envelope does not decode reaches the incoming handler with an error.
    ensures f.TextFrame? && f.envelope.Err? ==>
              Route(f) == Some(IncomingCall(None, Some(DecodeMessageFailed(f.envelope.error))))
    // The response handler is reached exactly by frames with the response tag ...
    ensures (Route(f).Some? && Route(f).value.ResponseCall?) <==>
              f.TextFrame? && f.envelope.Ok? && f.envelope.value.msgType == TypeOutgoingMessageRes
    // ... and gets the response when the body decodes, or nil and an error when it does not.
    ensures f.TextFrame? && f.envelope.Ok? && f.envelope.value.msgType == TypeOutgoingMessageRes ==>
              Route(f) == match f.envelope.value.body.asResponse
                          case Ok(j) => Some(ResponseCall(Some(UnmarshalRes(j)), None))
                          case Err(c) => Some(ResponseCall(None, Some(UnmarshalMessageFailed(c))))
    // The incoming-message tag reaches the incoming handler, with the message or an error.
    ensures f.TextFrame? && f.envelope.Ok? && f.envelope.value.msgType == TypeIncomingMessageReq ==>
              Route(f) == match f.envelope.value.body.asIncoming
                          case Ok(m) => Some(IncomingCall(Some(m), None))
                          case Err(c) => Some(IncomingCall(None, Some(UnmarshalMessageFailed(c))))
    // The error tag reaches the incoming handler with nil and "unknown error".
    ensures f.TextFrame? && f.envelope.Ok? && f.envelope.value.msgType == TypeErrorRes ==>
              Route(f) == Some(IncomingCall(None, Some(UnknownError)))
    // Nothing is called for other tags and for binary, ping, pong or other frames.
    ensures Route(f).None? <==>
              !f.TextFrame? ||
              (f.envelope.Ok? && (f.envelope.value.msgType.TypeOutgoingMessageReq? ||
                                  f.envelope.value.msgType.TypeOther?))
  {
  }

  /** The closure condition, as the reader is meant to deliver it, mirrors the
      frame that ended the loop: an error for a read error, nil for a close. */
  lemma {:induction false} ClosureConditionMatchesCause(frames: seq<Frame>)
    requires FirstTerminal(frames) < |frames|
    ensures var k := FirstTerminal(frames);
            ReaderEnd(frames) == Terminated(if frames[k].ReadError? then Some(ReadMessageFailed(frames[k].cause)) else None)
  {
    StopsAtFirstTerminal(frames);
  }

  /** The trace as the source writes it. The deferred call's argument
      `recover()` is evaluated when the defer statement runs, before any panic,
      so it is always nil: the closure handler never sees the read error. */
  function ReaderTraceAsWritten(frames: seq<Frame>): seq<HandlerCall>
  {
    if frames == [] then []
    else if IsTerminal(frames[0]) then [ClosureCall(None)]
    else OptionToSeq(Route(frames[0])) + ReaderTraceAsWritten(frames[1..])
  }

  /** The source's trace differs from the intended one exactly when the loop
      ended on a read error. */
  lemma {:induction false} AsWrittenLosesReadError(frames: seq<Frame>)
    ensures ReaderTraceAsWritten(frames) != ReaderTrace(frames) <==>
              ReaderEnd(frames).Terminated? && ReaderEnd(frames).cond.Some?
  {
    if frames != [] && !IsTerminal(frames[0]) {
      AsWrittenLosesReadError(frames[1..]);
      var head := OptionToSeq(Route(frames[0]));
      if ReaderTraceAsWritten(frames[1..]) != ReaderTrace(frames[1..]) {
        assert (head + ReaderTraceAsWritten(frames[1..]))[|head|..] == ReaderTraceAsWritten(frames[1..]);
        assert (head + ReaderTrace(frames[1..]))[|head|..] == ReaderTrace(frames[1..]);
      }
    }
  }

  /** A read error as the first frame: the source hands the closure handler nil,
      where the error was intended. */
  lemma ReadErrorReachesClosureAsNil()
    ensures ReaderTraceAsWritten([ReadError("EOF")]) == [ClosureCall(None)]
    ensures ReaderTrace([ReadError("EOF")]) == [ClosureCall(Some(ReadMessageFailed("EOF")))]
  {
  }
}
