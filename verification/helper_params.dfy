/** The string constants of lib/helper_params.go: the frame type tags and the
    persistence criteria, each as an enumeration with its wire encoding. */
module LibParams {
  import opened Wrappers

  /** The three frame type tags declared by the library. */
  datatype FrameType = IncomingMessage | OutgoingMessage | OutgoingMessageResponse

  /** The wire string of a frame type tag. */
  function FrameTypeString(t: FrameType): string
  {
    match t
    case IncomingMessage => "INCOMING_MESSAGE"
    case OutgoingMessage => "OUTGOING_MESSAGE"
    case OutgoingMessageResponse => "OUTGOING_MESSAGE_RESPONSE"
  }

  /** Reads a wire string back as a frame type tag; any other string is no tag. */
  function ParseFrameType(s: string): (r: Option<FrameType>)
    ensures r.Some? ==> FrameTypeString(r.value) == s
  {
    if s == "INCOMING_MESSAGE" then Some(IncomingMessage)
    else if s == "OUTGOING_MESSAGE" then Some(OutgoingMessage)
    else if s == "OUTGOING_MESSAGE_RESPONSE" then Some(OutgoingMessageResponse)
    else None
  }

  /** The three tags have pairwise distinct wire strings. */
  lemma FrameTypeStringInjective(t: FrameType, u: FrameType)
    ensures FrameTypeString(t) == FrameTypeString(u) <==> t == u
  {
  }

  /** Decoding the wire string of a tag gives the tag back, and a string decodes
      to a tag exactly when it is that tag's wire string. */
  lemma FrameTypeRoundTrip(t: FrameType, s: string)
    ensures ParseFrameType(FrameTypeString(t)) == Some(t)
    ensures ParseFrameType(s) == Some(t) <==> s == FrameTypeString(t)
  {
  }

  /** When and whether the hub persists an undelivered message. */
  datatype PersistenceCriteria =
    | PersistTrue       // always persisted, whatever the receiver's state
    | PersistFalse      // never persisted; lost if the receiver is offline
    | PersistIfOffline  // persisted only when the receiver is offline

  /** The wire string of a persistence criterion. */
  function PersistenceString(p: PersistenceCriteria): string
  {
    match p
    case PersistTrue => "true"
    case PersistFalse => "false"
    case PersistIfOffline => "if_offline"
  }

  /** Reads a wire string back as a persistence criterion. */
  function ParsePersistence(s: string): (r: Option<PersistenceCriteria>)
    ensures r.Some? ==> PersistenceString(r.value) == s
  {
    if s == "true" then Some(PersistTrue)
    else if s == "false" then Some(PersistFalse)
    else if s == "if_offline" then Some(PersistIfOffline)
    else None
  }

  /** The three persistence values have pairwise distinct wire strings. */
  lemma PersistenceStringInjective(p: PersistenceCriteria, q: PersistenceCriteria)
    ensures PersistenceString(p) == PersistenceString(q) <==> p == q
  {
  }

  /** decode(encode(p)) == p, and every string that is not one of the three
      encodings decodes to no value. */
  lemma PersistenceRoundTrip(p: PersistenceCriteria, s: string)
    ensures ParsePersistence(PersistenceString(p)) == Some(p)
    ensures ParsePersistence(s).None? <==>
              (forall q: PersistenceCriteria :: s != PersistenceString(q))
  {
  }
}
