/**
 * The stream client (`CensusStream`, src/index.ts:203-293): it owns the
 * connection target, delivers every inbound frame to its dispatch, and sends
 * the control frames its callers ask for.
 */
module Client {
  import opened Wrappers
  import opened Envelopes
  import opened Dispatch
  import opened ControlFrames
  import StreamUrl

  class CensusStream {
    const platform: string
    const serviceId: string

    /** The connection target the socket was opened on; fixed for the client's life. */
    const url: string

    /** The decoder the socket's text goes through (`JSON.parse`); None where it throws. */
    const parse: string -> Option<Envelope>

    /** Every control frame the socket accepted, in the order it was sent. */
    var outbox: seq<ControlFrame>

    /** Every `emit` call, in the order it was made. */
    var emitted: seq<Event>

    /** Every frame of text the socket has delivered, in arrival order. */
    ghost var received: seq<string>

    /** What has been emitted is exactly the dispatch of what has arrived, frame after frame. */
    ghost predicate Valid()
      reads this`emitted, this`received
    {
      emitted == StreamEvents(parse, received)
    }

    constructor (platform: string, serviceId: string, parse: string -> Option<Envelope>)
      ensures this.platform == platform && this.serviceId == serviceId && this.parse == parse
      ensures url == StreamUrl.StreamUrlComplete(platform, serviceId)
      ensures outbox == [] && emitted == [] && received == []
      ensures Valid()
    {
      this.platform := platform;
      this.serviceId := serviceId;
      this.parse := parse;
      url := StreamUrl.StreamUrlComplete(platform, serviceId);
      outbox := [];
      emitted := [];
      received := [];
    }

    /** `onData`: one frame of text from the socket; text that does not parse is dropped. */
    method OnData(data: string)
      requires Valid()
      modifies this`emitted, this`received
      ensures Valid()
      ensures received == old(received) + [data]
      ensures emitted == old(emitted) + OnDataEvents(parse(data))
    {
      var parsed := parse(data);
      if parsed.Some? {
        EmitData(parsed.value);
      }
      received := received + [data];
      StreamEventsSnoc(parse, old(received), data);
    }

    /**
     * `emit('data', e)`: the listener `handleTypes` registered first runs
     * inside it. An internal step of `OnData`, which restores `Valid()`.
     */
    method EmitData(e: Envelope)
      modifies this`emitted
      ensures emitted == old(emitted) + FrameEvents(e)
    {
      emitted := emitted + [Event(DataEvent, e)];
      HandleTypes(e);
    }

    /** The private `handleTypes` listener: re-emits by `type` tag. An internal step of `EmitData`. */
    method HandleTypes(e: Envelope)
      modifies this`emitted
      ensures emitted == old(emitted) + SecondaryEvents(e)
    {
      match e
      case HeartbeatMsg(_, _) =>
        emitted := emitted + [Event(HeartbeatEvent, e)];
      case ServiceMsg(_, payload) =>
        emitted := emitted + [Event(payload.event_name, e)];
      case _ =>
    }

    /**
     * `ws.send`: `delivered` is the transport's outcome. A send that throws
     * is caught and only logged, so the frame is simply not sent.
     */
    method Send(frame: ControlFrame, delivered: bool)
      modifies this`outbox
      ensures outbox == old(outbox) + (if delivered then [frame] else [])
    {
      if delivered {
        outbox := outbox + [frame];
      }
    }

    /** `subscribe`, with the source's defaults for `characters` and the flag. */
    method Subscribe(worlds: seq<int>, eventNames: seq<string>, characters: seq<string> := AllCharacters,
                     logicalAndCharactersWithWorlds: bool := DefaultLogicalAnd, nameonly delivered: bool)
      modifies this`outbox
      ensures outbox == old(outbox)
        + (if delivered then [SubscribeFrame(worlds, eventNames, characters, logicalAndCharactersWithWorlds)] else [])
    {
      var frame := SubscribeFrame(worlds, eventNames, characters, logicalAndCharactersWithWorlds);
      Send(frame, delivered);
    }

    /** `unsubscribe`, with the source's defaults for `worlds` and `characters`; it carries no flag. */
    method Unsubscribe(worlds: seq<int> := [], eventNames: seq<string>, characters: seq<string> := AllCharacters,
                       nameonly delivered: bool)
      modifies this`outbox
      ensures outbox == old(outbox) + (if delivered then [ClearSubscribeFrame(worlds, characters, eventNames)] else [])
    {
      var frame := ClearSubscribeFrame(worlds, characters, eventNames);
      Send(frame, delivered);
    }

    /** `unsubscribeAll`: always the same frame. */
    method UnsubscribeAll(nameonly delivered: bool)
      modifies this`outbox
      ensures outbox == old(outbox) + (if delivered then [ClearAllFrame] else [])
    {
      Send(ClearAllFrame, delivered);
    }
  }
}
