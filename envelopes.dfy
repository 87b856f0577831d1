/**
 * Inbound envelopes: the decoded shape of every frame the server pushes,
 * discriminated by its `type` tag (src/index.ts:5-37).
 */
module Envelopes {
  import opened Wrappers

  /** The four `type` tags the client knows of (`MessageType`). */
  datatype MessageType = Heartbeat | ServiceMessage | ServiceStateChange | ConnectionStateChanged

  /**
   * The payload of a service message: its `event_name`, and every other
   * field (`timestamp`, ids, ...) kept as the string-valued map the wire
   * delivers.
   */
  datatype Payload = Payload(event_name: string, fields: map<string, string>)

  /**
   * One decoded envelope. `service` is the owning subsystem's tag. The
   * last variant is the default arm: an envelope whose `type` is none of
   * the four known tags. The decoder never yields an `Unrecognized`
   * envelope whose `typeTag` is one of those tags; such text decodes to the
   * matching variant instead, so dispatch by variant is dispatch by tag.
   */
  datatype Envelope =
    | HeartbeatMsg(service: string, online: map<string, string>)
    | ServiceMsg(service: string, payload: Payload)
    | ServiceStateChangeMsg(service: string, state: string)
    | ConnectionStateMsg(service: string, connected: string)
    | Unrecognized(service: string, typeTag: string)

  /** The known `type` of an envelope, if it has one. */
  function TypeOf(e: Envelope): (t: Option<MessageType>)
    ensures t.None? <==> e.Unrecognized?
  {
    match e
    case HeartbeatMsg(_, _) => Some(Heartbeat)
    case ServiceMsg(_, _) => Some(ServiceMessage)
    case ServiceStateChangeMsg(_, _) => Some(ServiceStateChange)
    case ConnectionStateMsg(_, _) => Some(ConnectionStateChanged)
    case Unrecognized(_, _) => None
  }

  /** One call of `emit`: the event name and the value it carries. */
  datatype Event = Event(name: string, value: Envelope)
}
