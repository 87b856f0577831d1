# Census stream client, modelled in Dafny

A model of the protocol logic inside `CensusStream`, a client for the
PlanetSide 2 push event stream. The client opens one websocket to a URL
built from a namespace and a service id. It decodes every text frame the
server pushes and emits it as `data`. It then re-emits heartbeats under
`heartbeat` and service messages under their payload's `event_name`. It
also sends three kinds of control frame: subscribe, clear a subscription,
and clear everything.

Modules, one per part of `src/index.ts`:

- `StreamUrl` (`stream_url.dfy`): the connection target, and a parser that inverts it.
- `Envelopes` (`envelopes.dfy`): the inbound envelope as a closed datatype.
  It has the four `type` variants plus a default arm for any other `type`.
  A payload is its `event_name` plus an opaque string map.
- `Dispatch` (`dispatch.dfy`): the `onData` and `handleTypes` rules as
  functions from a frame to the emits it makes. It also covers a whole
  stream of frames, and the re-entrant emit as the source wires it.
- `ControlFrames` (`control_frames.dfy`): the three control frames as a
  datatype. Each has its JSON object view, with keys in the source's order,
  and a reader that inverts it.
- `Client` (`client.dfy`): the class `CensusStream`. `outbox` logs the
  frames the socket accepted. `emitted` logs the `emit` calls. A ghost
  `received` logs the frames that arrived. The invariant `Valid()` says that
  `emitted` is the in-order dispatch of `received`. `OnData` keeps it.
  `EmitData` and `HandleTypes` are the internal steps of `OnData`, as
  `emit('data', …)` and the private listener are in the source; called on
  their own they append to `emitted` without keeping `Valid()`.
- `Wrappers` (`wrappers.dfy`): `Option`.

The decoder (`JSON.parse`) is a constructor parameter,
`parse: string -> Option<Envelope>`. Its `None` stands for the text on which
`JSON.parse` throws. Whether `ws.send` succeeds is a `delivered` argument of
each send method.

## Model

| member | source | states |
|---|---|---|
| `StreamUrl.EndpointWssIsSecureEndpoint` | src/index.ts:195-197 | `streamUrlWss` is `streamUrl` under the `wss://` scheme |
| `StreamUrl.StreamUrlComplete` | src/index.ts:195-201 | the URL starts with `wss://push.planetside2.com/streaming`, then `?environment=` and the namespace, and ends in `s:` followed by the service id; its length is the sum of its parts |
| `StreamUrl.ParseInvertsComplete` | src/index.ts:199-201 | for a namespace without `&`, reading the URL back gives exactly the namespace and service id it was built from |
| `StreamUrl.ParseSound` | src/index.ts:199-201 | any URL the reader accepts is exactly `streamUrlComplete` of what it returns, and that namespace has no `&` (with ParseInvertsComplete, an if-and-only-if) |
| `StreamUrl.CompleteInjective` | src/index.ts:199-201 | two `&`-free namespace/service-id pairs giving the same URL are the same pair |
| `StreamUrl.DistinctServiceIds` | src/index.ts:200 | under any one namespace, distinct service ids give distinct URLs |
| `Envelopes.TypeOf` | src/index.ts:5-32 | an envelope has no known `type` exactly when it is the default arm |
| `Dispatch.SecondaryName` | src/index.ts:230-240 | the listener re-emits an envelope exactly when its `type` is heartbeat or serviceMessage |
| `Dispatch.SecondaryEvents` | src/index.ts:230-240 | the listener makes at most one re-emission, always of the envelope itself, and one exactly when there is a re-emission name |
| `Dispatch.OnDataEvents` | src/index.ts:222-228 | the pure `onData`: no emit exactly when parsing fails; otherwise `data` with the decoded value first, every emit carrying that value; its properties are stated by `Dispatch.OnDataOutcome` |
| `Dispatch.FrameEvents` | src/index.ts:222-240 | a decoded frame sets off one or two emits: the first is `data`, and every one carries the decoded envelope |
| `Dispatch.OnDataOutcome` | src/index.ts:222-228 | text that does not parse emits nothing; text that parses first emits `data` with the decoded value, and that is its only `data` emit unless the message is re-emitted under `data` itself |
| `Dispatch.HeartbeatFrame` | src/index.ts:231-235 | a heartbeat gives exactly `data` then `heartbeat`, both carrying the same envelope, one of each |
| `Dispatch.ServiceMessageFrame` | src/index.ts:236-237 | a service message gives exactly `data` then its payload's `event_name`, both carrying the same envelope, one of each when that name is not `data` |
| `Dispatch.OtherFrame` | src/index.ts:232-238 | any other `type` gives only the `data` emit and nothing under any other name |
| `Dispatch.StreamEventsAppend` | src/index.ts:215-228 | the emits of two runs of frames are the emits of the first run followed by those of the second |
| `Dispatch.StreamEvents` | src/index.ts:215-228 | frames delivered one after another, each dispatched in full before the next; at most two emits per frame; its properties are stated by `Dispatch.StreamEventsAppend`, `Dispatch.StreamInOrder` and `Dispatch.StreamEventsBounds` |
| `Dispatch.StreamEventsBounds` | src/index.ts:215-240 | a stream gives at least one and at most two emits for each frame that parses, and none for the others |
| `Dispatch.StreamInOrder` | src/index.ts:215-228 | the emits of frame `i` sit after those of every earlier frame and before those of every later one |
| `Dispatch.DataCountMatchesParsed` | src/index.ts:222-240 | over a stream, the number of `data` emits is the number of frames that parse, provided no service message is named `data` |
| `Dispatch.NestedEmits` | src/index.ts:224-237 | the emits one `emit` call sets off as written, with the listener re-run on every emit named `data`; whenever they settle, the first is the call's own emit and all carry the same envelope |
| `Dispatch.DataNamedMessageNeverSettles` | src/index.ts:231-238 | as written, a service message whose `event_name` is `data` re-enters the listener at every depth and never settles |
| `Dispatch.NestedEmitsAgree` | src/index.ts:231-238 | for every other envelope, the emits as written are exactly `FrameEvents` |
| `ControlFrames.ToJson` | src/index.ts:248-285 | the three `payload` object literals: every one starts with `service: "event"` and then its `action`; its properties are stated by `ControlFrames.RoundTrip` and `ControlFrames.FrameKeys` |
| `ControlFrames.RoundTrip` | src/index.ts:248-285 | every control frame's object reads back as that frame |
| `ControlFrames.ToJsonInjective` | src/index.ts:248-285 | two frames sent as the same object are the same frame |
| `ControlFrames.FrameKeys` | src/index.ts:248-285 | the keys of each frame's object in order; `logicalAndCharactersWithWorlds` appears exactly in a subscribe |
| `ControlFrames.DefaultSubscribeObject` | src/index.ts:242-255 | a subscribe with defaulted arguments is `{service:"event", action:"subscribe", worlds, eventNames, characters:["all"], logicalAndCharactersWithWorlds:false}` |
| `ControlFrames.ClearAllObject` | src/index.ts:280-285 | clearing everything is always `{service:"event", action:"clearSubscribe", all:"true"}`, with `all` a string |
| `Client.CensusStream.constructor` | src/index.ts:206-220 | the URL is `streamUrlComplete(platform, serviceId)` and is fixed for the client's life; nothing has been sent, received or emitted |
| `Client.CensusStream.OnData` | src/index.ts:215-228 | one delivered frame appends exactly its `FrameEvents` dispatch (the corrected one for a message named `data`, see Left out) to the emit log, keeping the log equal to the in-order dispatch of all frames received |
| `Client.CensusStream.EmitData` | src/index.ts:224 | emitting `data` logs `data`, then the listener's one re-emission inside that emit, which is not dispatched again |
| `Client.CensusStream.HandleTypes` | src/index.ts:230-240 | the listener appends exactly its re-emission to the emit log |
| `Client.CensusStream.Send` | src/index.ts:257-261 | a delivered frame is appended once; a failed send, caught and only logged, changes nothing |
| `Client.CensusStream.Subscribe` | src/index.ts:242-262 | appends exactly one subscribe frame with the given or defaulted `characters` (`["all"]`) and flag (`false`) when delivered, else nothing; nothing is emitted |
| `Client.CensusStream.Unsubscribe` | src/index.ts:264-278 | appends exactly one clear-subscribe frame with `worlds` defaulting to `[]` and `characters` to `["all"]`, with no flag, when delivered, else nothing |
| `Client.CensusStream.UnsubscribeAll` | src/index.ts:280-292 | appends the constant clear-everything frame when delivered, else nothing |

## Findings

| source | as written | input that shows it | evidently intended | confidence | as-written member | corrected member |
|---|---|---|---|---|---|---|
| src/index.ts:231-237 | the listener re-emits a service message under its `event_name` from inside the `data` emit; if that name is `data`, the re-emission runs the same listener again, without end, until the stack overflows and `onData`'s catch swallows the error; the caller's own `data` listeners never see the frame | a serviceMessage envelope whose `payload.event_name` is `"data"` | each decoded frame sets off one `data` emit and at most one re-emission, and dispatch always finishes | low: the server's event names never equal `data`; not executed | `Dispatch.NestedEmits`, with `Dispatch.DataNamedMessageNeverSettles` | `Dispatch.FrameEvents`, with `Dispatch.ServiceMessageFrame` and `Dispatch.NestedEmitsAgree` |

## Left out

- Websocket lifecycle: opening the socket, the one-time `open` event, and the delivery of messages (src/index.ts:212-217). These are network I/O. Delivery is modelled only as successive `OnData` calls, and `ws.send` only as `Send` with a `delivered` outcome.
- `JSON.parse` and `JSON.stringify`: foreign code. Parsing is the abstract `parse` function. Frames are datatypes with a JSON-value view, not text.
- JSON values that parse but are not envelopes: the model's `parse` yields envelopes only. As written, the text `null` makes the listener throw on `data.type`, before any caller `data` listener runs, and `onData`'s catch swallows the error. A number, a string or an object without `type` reads `data.type` as `undefined`: nothing throws, `data` is emitted and nothing is re-emitted, which is what the model does for its `Unrecognized` arm. A `serviceMessage` without `payload` throws at `data.payload.event_name` (src/index.ts:237) after the `data` emit has begun, and the catch swallows that too.
- The `EventEmitter`, its listener registry and the order in which listeners run: the model logs `emit` calls in the order they are made. As written, `handleTypes` is the first `data` listener, so a caller's `heartbeat` or per-event listeners run before its own `data` listeners for the same frame. An exception thrown by a caller's listener, and `emit('error')` with no listener, are caught by `onData`'s catch; these are not modelled.
- `console.debug` diagnostics (src/index.ts:226, 260, 276, 290): logging only.
- The payload interfaces (src/index.ts:39-193): field catalogues with no logic. A payload is its `event_name` plus a string map.
- The `planetside-census-data` enums: `MessageType` is a datatype, and the namespace, service and event-name types are strings. Their definitions are not part of this model.
- World ids are unbounded integers; JavaScript numbers are doubles.
- `StreamUrl.ParseInvertsComplete`: holds only for namespaces without `&`, because the template string splices the namespace in unencoded; `StreamUrl.DistinctServiceIds` holds for any namespace.
- Client.CensusStream.OnData: for a frame that decodes to a service message whose `event_name` is `data`, it promises the emits `[data, data]` and a normal return. As written, that dispatch never settles: the re-emission under `data` runs the listener again until the stack overflows and the catch swallows the error (see Findings, `Dispatch.NestedEmits`). The class follows the corrected `Dispatch.FrameEvents`.
- Client.CensusStream.EmitData: the listener's re-emission runs inside the `data` emit, but a re-emission that is itself named `data` is not dispatched again. As written it is, without end (see Findings).
- Client.CensusStream.HandleTypes: its emit under the payload's `event_name` only logs that emit; unlike `this.emit` at src/index.ts:237, an emit under `data` does not run the listener again (see Findings).
- Dispatch.OnDataOutcome: the case where the count of `data` emits is 2 is the corrected dispatch of a message named `data`; as written that frame never settles (see Findings, `Dispatch.DataNamedMessageNeverSettles`).
- `Dispatch.DataCountMatchesParsed`: assumes no service message is named `data` (see Findings).
- `dist/index.d.ts`: generated declarations with no bodies.
