/** The three call event names the relay forwards and the clients listen for. */
module Events {
  import opened Common

  datatype EventType = IncomingCall | OutgoingCall | CallRecording

  /** The wire name of an event: the socket event name and the `:type` path segment. */
  function Name(e: EventType): (r: string)
    ensures r in ValidTypes
  {
    match e
    case IncomingCall => "incomingCall"
    case OutgoingCall => "outgoingCall"
    case CallRecording => "callRecording"
  }

  /** The relay's whitelist, in the order it is written. */
  const ValidTypes: seq<string> := ["incomingCall", "outgoingCall", "callRecording"]

  /** Recognise a wire name. */
  function Parse(s: string): (r: Option<EventType>)
    ensures r.Some? <==> s in ValidTypes
    ensures r.Some? ==> Name(r.value) == s
  {
    if s == "incomingCall" then Some(IncomingCall)
    else if s == "outgoingCall" then Some(OutgoingCall)
    else if s == "callRecording" then Some(CallRecording)
    else None
  }

  /** Every event's name is on the whitelist and is recognised as that event. */
  lemma ParseName(e: EventType)
    ensures Name(e) in ValidTypes
    ensures Parse(Name(e)) == Some(e)
  {
  }
}
