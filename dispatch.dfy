/**
 * Inbound dispatch: what `onData` and the `handleTypes` listener emit for
 * each frame of text the socket delivers (src/index.ts:222-240).
 */
module Dispatch {
  import opened Wrappers
  import opened Envelopes

  /** The event every decoded frame is first emitted under. */
  const DataEvent: string := "data"

  /** The event a heartbeat is re-emitted under. */
  const HeartbeatEvent: string := "heartbeat"

  /**
   * The name the `handleTypes` listener re-emits an envelope under: a
   * heartbeat under `heartbeat`, a service message under its payload's
   * `event_name`, and nothing for any other `type`.
   */
  function SecondaryName(e: Envelope): (name: Option<string>)
    ensures name.Some? <==> TypeOf(e) == Some(Heartbeat) || TypeOf(e) == Some(ServiceMessage)
  {
    match e
    case HeartbeatMsg(_, _) => Some(HeartbeatEvent)
    case ServiceMsg(_, p) => Some(p.event_name)
    case _ => None
  }

  /** The re-emission `handleTypes` makes for one envelope, if any. */
  function SecondaryEvents(e: Envelope): (evs: seq<Event>)
    ensures |evs| <= 1
    ensures forall i :: 0 <= i < |evs| ==> evs[i].value == e
    ensures evs == [] <==> SecondaryName(e).None?
  {
    match SecondaryName(e)
    case None => []
    case Some(n) => [Event(n, e)]
  }

  /**
   * The emits one decoded frame sets off, in the order they are invoked:
   * `data` first, then the listener's re-emission (which runs inside the
   * `data` emit). A re-emission is never dispatched again.
   */
  function FrameEvents(e: Envelope): (evs: seq<Event>)
    ensures 1 <= |evs| <= 2
    ensures evs[0] == Event(DataEvent, e)
    ensures forall i :: 0 <= i < |evs| ==> evs[i].value == e
  {
    [Event(DataEvent, e)] + SecondaryEvents(e)
  }

  /** `onData`: a frame that fails to parse emits nothing. */
  function OnDataEvents(parsed: Option<Envelope>): (evs: seq<Event>)
    ensures parsed.None? ==> |evs| == 0
    ensures parsed.Some? ==> |evs| >= 1 && evs[0] == Event(DataEvent, parsed.value)
    ensures forall i :: 0 <= i < |evs| ==> Some(evs[i].value) == parsed
  {
    match parsed
    case None => []
    case Some(e) => FrameEvents(e)
  }

  /** The emits of a whole stream of frames, handled one after another in arrival order. */
  function StreamEvents(parse: string -> Option<Envelope>, frames: seq<string>): (evs: seq<Event>)
    ensures |evs| <= 2 * |frames|
  {
    if frames == [] then []
    else StreamEvents(parse, frames[..|frames| - 1]) + OnDataEvents(parse(frames[|frames| - 1]))
  }

  /** The number of emits under `name`. */
  function Count(evs: seq<Event>, name: string): nat
  {
    if evs == [] then 0
    else (if evs[0].name == name then 1 else 0) + Count(evs[1..], name)
  }

  /** The number of frames that parse. */
  function ParsedCount(parse: string -> Option<Envelope>, frames: seq<string>): nat
  {
    if frames == [] then 0
    else ParsedCount(parse, frames[..|frames| - 1]) + (if parse(frames[|frames| - 1]).Some? then 1 else 0)
  }

  /** A service message re-emitted under `data` itself. */
  predicate RenamesToData(e: Envelope)
  {
    SecondaryName(e) == Some(DataEvent)
  }

  /** Text that parses gives exactly the frame's emits; text that does not gives none, and nothing fails. */
  lemma OnDataOutcome(parsed: Option<Envelope>)
    ensures parsed.None? ==> OnDataEvents(parsed) == []
    ensures parsed.Some? ==> OnDataEvents(parsed)[0] == Event(DataEvent, parsed.value)
    ensures parsed.Some? ==> Count(OnDataEvents(parsed), DataEvent) == if RenamesToData(parsed.value) then 2 else 1
  {
    if parsed.Some? {
      var e := parsed.value;
      match SecondaryName(e)
      case None =>
        CountOne(Event(DataEvent, e), DataEvent);
      case Some(n) =>
        CountTwo(Event(DataEvent, e), Event(n, e), DataEvent);
    }
  }

  /** A heartbeat gives one `data` and one `heartbeat` emit, both carrying the envelope itself. */
  lemma HeartbeatFrame(e: Envelope)
    requires e.HeartbeatMsg?
    ensures FrameEvents(e) == [Event(DataEvent, e), Event(HeartbeatEvent, e)]
    ensures Count(FrameEvents(e), DataEvent) == 1
    ensures Count(FrameEvents(e), HeartbeatEvent) == 1
  {
    CountTwo(Event(DataEvent, e), Event(HeartbeatEvent, e), DataEvent);
    CountTwo(Event(DataEvent, e), Event(HeartbeatEvent, e), HeartbeatEvent);
  }

  /**
   * A service message gives one `data` emit and one emit under its
   * payload's `event_name`, both carrying the envelope itself.
   */
  lemma ServiceMessageFrame(e: Envelope)
    requires e.ServiceMsg?
    ensures FrameEvents(e) == [Event(DataEvent, e), Event(e.payload.event_name, e)]
    ensures e.payload.event_name != DataEvent ==> Count(FrameEvents(e), DataEvent) == 1
    ensures e.payload.event_name != DataEvent ==> Count(FrameEvents(e), e.payload.event_name) == 1
  {
    var n := e.payload.event_name;
    CountTwo(Event(DataEvent, e), Event(n, e), DataEvent);
    CountTwo(Event(DataEvent, e), Event(n, e), n);
  }

  /** Any other `type` gives the `data` emit and no second one. */
  lemma OtherFrame(e: Envelope)
    requires !e.HeartbeatMsg? && !e.ServiceMsg?
    ensures FrameEvents(e) == [Event(DataEvent, e)]
    ensures forall name :: name != DataEvent ==> Count(FrameEvents(e), name) == 0
  {
  }

  lemma CountOne(a: Event, name: string)
    ensures Count([a], name) == if a.name == name then 1 else 0
  {
  }

  lemma CountTwo(a: Event, b: Event, name: string)
    ensures Count([a, b], name) == (if a.name == name then 1 else 0) + (if b.name == name then 1 else 0)
  {
    assert [a, b][1..] == [b];
    CountOne(b, name);
  }

  /** `Count` adds up over concatenation. */
  lemma {:induction false} CountAppend(a: seq<Event>, b: seq<Event>, name: string)
    ensures Count(a + b, name) == Count(a, name) + Count(b, name)
  {
    if a == [] {
      assert a + b == b;
    } else {
      assert (a + b)[0] == a[0];
      assert (a + b)[1..] == a[1..] + b;
      CountAppend(a[1..], b, name);
    }
  }

  /** The stream of two runs of frames is the first run's emits followed by the second's. */
  lemma {:induction false} StreamEventsAppend(parse: string -> Option<Envelope>, xs: seq<string>, ys: seq<string>)
    ensures StreamEvents(parse, xs + ys) == StreamEvents(parse, xs) + StreamEvents(parse, ys)
    decreases |ys|
  {
    if ys == [] {
      assert xs + ys == xs;
    } else {
      var init, last := ys[..|ys| - 1], ys[|ys| - 1];
      assert ys == init + [last];
      assert xs + ys == (xs + init) + [last];
      StreamEventsAppend(parse, xs, init);
      StreamEventsSnoc(parse, xs + init, last);
      StreamEventsSnoc(parse, init, last);
      ConcatAssoc(StreamEvents(parse, xs), StreamEvents(parse, init), OnDataEvents(parse(last)));
    }
  }

  lemma ConcatAssoc<T>(a: seq<T>, b: seq<T>, c: seq<T>)
    ensures (a + b) + c == a + (b + c)
  {
  }

  /** A stream gives one or two emits for every frame that parses, and none for the others. */
  lemma {:induction false} StreamEventsBounds(parse: string -> Option<Envelope>, frames: seq<string>)
    ensures ParsedCount(parse, frames) <= |StreamEvents(parse, frames)| <= 2 * ParsedCount(parse, frames)
    decreases |frames|
  {
    if frames != [] {
      StreamEventsBounds(parse, frames[..|frames| - 1]);
    }
  }

  /** One more frame appends its own emits. */
  lemma StreamEventsSnoc(parse: string -> Option<Envelope>, frames: seq<string>, last: string)
    ensures StreamEvents(parse, frames + [last]) == StreamEvents(parse, frames) + OnDataEvents(parse(last))
  {
    assert (frames + [last])[..|frames|] == frames;
  }

  /**
   * Arrival order is kept: the emits of frame `i` sit after those of every
   * earlier frame and before those of every later one.
   */
  lemma {:induction false} StreamInOrder(parse: string -> Option<Envelope>, frames: seq<string>, i: nat)
    requires i < |frames|
    ensures StreamEvents(parse, frames)
         == StreamEvents(parse, frames[..i]) + OnDataEvents(parse(frames[i])) + StreamEvents(parse, frames[i + 1..])
  {
    var before, here, after := frames[..i], [frames[i]], frames[i + 1..];
    var left := before + here;
    assert left + after == frames;
    StreamEventsAppend(parse, left, after);
    StreamEventsAppend(parse, before, here);
    StreamOfOne(parse, frames[i]);
  }

  lemma StreamOfOne(parse: string -> Option<Envelope>, frame: string)
    ensures StreamEvents(parse, [frame]) == OnDataEvents(parse(frame))
  {
  }

  /**
   * Over a whole stream, there is one `data` emit per frame that parses,
   * as long as no service message is re-emitted under `data` itself.
   */
  lemma {:induction false} DataCountMatchesParsed(parse: string -> Option<Envelope>, frames: seq<string>)
    requires forall i :: 0 <= i < |frames| && parse(frames[i]).Some? ==> !RenamesToData(parse(frames[i]).value)
    ensures Count(StreamEvents(parse, frames), DataEvent) == ParsedCount(parse, frames)
    decreases |frames|
  {
    if frames != [] {
      var init := frames[..|frames| - 1];
      var last := frames[|frames| - 1];
      assert forall i :: 0 <= i < |init| ==> init[i] == frames[i];
      DataCountMatchesParsed(parse, init);
      CountAppend(StreamEvents(parse, init), OnDataEvents(parse(last)), DataEvent);
      OnDataOutcome(parse(last));
    }
  }

  /**
   * The emits one `this.emit(name, e)` call sets off as src/index.ts wires
   * the listener: emitting `data` runs `handleTypes`, which emits again, and
   * that emit runs the listener again if its name is `data` too. `fuel`
   * bounds the nesting; None means it was used up before the emits settled.
   */
  function NestedEmits(name: string, e: Envelope, fuel: nat): (r: Option<seq<Event>>)
    ensures r.Some? ==> |r.value| >= 1 && r.value[0] == Event(name, e)
    ensures r.Some? ==> forall i :: 0 <= i < |r.value| ==> r.value[i].value == e
    decreases fuel
  {
    if name != DataEvent then Some([Event(name, e)])
    else if fuel == 0 then None
    else
      match SecondaryName(e)
      case None => Some([Event(DataEvent, e)])
      case Some(n) =>
        match NestedEmits(n, e, fuel - 1)
        case None => None
        case Some(rest) => Some([Event(DataEvent, e)] + rest)
  }

  /** As written, a service message named `data` never settles, whatever depth is allowed. */
  lemma {:induction false} DataNamedMessageNeverSettles(e: Envelope, fuel: nat)
    requires RenamesToData(e)
    ensures NestedEmits(DataEvent, e, fuel) == None
    decreases fuel
  {
    if fuel > 0 {
      DataNamedMessageNeverSettles(e, fuel - 1);
    }
  }

  /** For every other envelope the nested emits as written are exactly `FrameEvents`. */
  lemma NestedEmitsAgree(e: Envelope, fuel: nat)
    requires fuel >= 1
    requires !RenamesToData(e)
    ensures NestedEmits(DataEvent, e, fuel) == Some(FrameEvents(e))
  {
    match SecondaryName(e)
    case None =>
      assert SecondaryEvents(e) == [];
      assert FrameEvents(e) == [Event(DataEvent, e)];
    case Some(n) =>
      assert NestedEmits(n, e, fuel - 1) == Some([Event(n, e)]);
  }
}
