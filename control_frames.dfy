/**
 * Outbound control frames: the fixed-shape objects `subscribe`,
 * `unsubscribe` and `unsubscribeAll` hand to the socket
 * (src/index.ts:242-292).
 */
module ControlFrames {
  import opened Wrappers

  /** The `service` every control frame names. */
  const EventService: string := "event"

  const SubscribeAction: string := "subscribe"
  const ClearSubscribeAction: string := "clearSubscribe"

  /** The default `characters`: every character. */
  const AllCharacters: seq<string> := ["all"]

  /** The flag `subscribe` sends when its caller gives none. */
  const DefaultLogicalAnd: bool := false

  datatype ControlFrame =
    | SubscribeFrame(worlds: seq<int>, eventNames: seq<string>, characters: seq<string>,
                     logicalAndCharactersWithWorlds: bool)
    | ClearSubscribeFrame(worlds: seq<int>, characters: seq<string>, eventNames: seq<string>)
    | ClearAllFrame

  /** The JSON values a control frame is made of; an object keeps its keys in insertion order. */
  datatype Json =
    | JString(str: string)
    | JNumber(num: int)
    | JBool(flag: bool)
    | JArray(items: seq<Json>)
    | JObject(members: seq<(string, Json)>)

  function Numbers(xs: seq<int>): seq<Json>
  {
    if xs == [] then [] else [JNumber(xs[0])] + Numbers(xs[1..])
  }

  function Strings(xs: seq<string>): seq<Json>
  {
    if xs == [] then [] else [JString(xs[0])] + Strings(xs[1..])
  }

  /**
   * The object literal each send method builds, with its keys in the order
   * the source writes them.
   */
  function ToJson(f: ControlFrame): (j: Json)
    ensures j.JObject? && |j.members| >= 3
    ensures j.members[0] == ("service", JString(EventService))
    ensures j.members[1] == ("action", JString(if f.SubscribeFrame? then SubscribeAction else ClearSubscribeAction))
  {
    match f
    case SubscribeFrame(w, n, c, and) =>
      JObject([("service", JString(EventService)), ("action", JString(SubscribeAction)),
               ("worlds", JArray(Numbers(w))), ("eventNames", JArray(Strings(n))),
               ("characters", JArray(Strings(c))), ("logicalAndCharactersWithWorlds", JBool(and))])
    case ClearSubscribeFrame(w, c, n) =>
      JObject([("service", JString(EventService)), ("action", JString(ClearSubscribeAction)),
               ("worlds", JArray(Numbers(w))), ("characters", JArray(Strings(c))),
               ("eventNames", JArray(Strings(n)))])
    case ClearAllFrame =>
      JObject([("service", JString(EventService)), ("action", JString(ClearSubscribeAction)),
               ("all", JString("true"))])
  }

  /** The keys of an object, in order; none for any other value. */
  function Keys(j: Json): seq<string>
  {
    match j
    case JObject(m) => seq(|m|, i requires 0 <= i < |m| => m[i].0)
    case _ => []
  }

  /** The value of the first member named `key`. */
  function Lookup(m: seq<(string, Json)>, key: string): Option<Json>
  {
    if m == [] then None
    else if m[0].0 == key then Some(m[0].1)
    else Lookup(m[1..], key)
  }

  /** No member is named `key`. */
  lemma {:induction false} LookupAbsent(m: seq<(string, Json)>, key: string)
    requires forall j :: 0 <= j < |m| ==> m[j].0 != key
    ensures Lookup(m, key) == None
  {
    if m != [] {
      LookupAbsent(m[1..], key);
    }
  }

  /** The member at `i` is the first one named `key`. */
  lemma {:induction false} LookupAt(m: seq<(string, Json)>, i: nat, key: string)
    requires i < |m| && m[i].0 == key
    requires forall j :: 0 <= j < i ==> m[j].0 != key
    ensures Lookup(m, key) == Some(m[i].1)
  {
    if i > 0 {
      LookupAt(m[1..], i - 1, key);
    }
  }

  function AsNumbers(items: seq<Json>): Option<seq<int>>
  {
    if items == [] then Some([])
    else if !items[0].JNumber? then None
    else
      match AsNumbers(items[1..])
      case None => None
      case Some(rest) => Some([items[0].num] + rest)
  }

  function AsStrings(items: seq<Json>): Option<seq<string>>
  {
    if items == [] then Some([])
    else if !items[0].JString? then None
    else
      match AsStrings(items[1..])
      case None => None
      case Some(rest) => Some([items[0].str] + rest)
  }

  function NumberArray(j: Option<Json>): Option<seq<int>>
  {
    if j.Some? && j.value.JArray? then AsNumbers(j.value.items) else None
  }

  function StringArray(j: Option<Json>): Option<seq<string>>
  {
    if j.Some? && j.value.JArray? then AsStrings(j.value.items) else None
  }

  /**
   * Reads a control object back into a frame: `service` must be `event`,
   * `action` selects the kind, and a `clearSubscribe` carrying
   * `all: "true"` clears everything.
   */
  function FromJson(j: Json): Option<ControlFrame>
  {
    if !j.JObject? then None
    else
      var m := j.members;
      if Lookup(m, "service") != Some(JString(EventService)) then None
      else if Lookup(m, "action") == Some(JString(SubscribeAction)) then
        var w, n, c, and := NumberArray(Lookup(m, "worlds")), StringArray(Lookup(m, "eventNames")),
                            StringArray(Lookup(m, "characters")), Lookup(m, "logicalAndCharactersWithWorlds");
        if w.Some? && n.Some? && c.Some? && and.Some? && and.value.JBool? then
          Some(SubscribeFrame(w.value, n.value, c.value, and.value.flag))
        else None
      else if Lookup(m, "action") == Some(JString(ClearSubscribeAction)) then
        if Lookup(m, "all") == Some(JString("true")) then Some(ClearAllFrame)
        else
          var w, c, n := NumberArray(Lookup(m, "worlds")), StringArray(Lookup(m, "characters")),
                         StringArray(Lookup(m, "eventNames"));
          if w.Some? && c.Some? && n.Some? then Some(ClearSubscribeFrame(w.value, c.value, n.value))
          else None
      else None
  }

  lemma {:induction false} NumbersRoundTrip(xs: seq<int>)
    ensures AsNumbers(Numbers(xs)) == Some(xs)
  {
    if xs != [] {
      NumbersRoundTrip(xs[1..]);
      assert Numbers(xs)[1..] == Numbers(xs[1..]);
      assert [xs[0]] + xs[1..] == xs;
    }
  }

  lemma {:induction false} StringsRoundTrip(xs: seq<string>)
    ensures AsStrings(Strings(xs)) == Some(xs)
  {
    if xs != [] {
      StringsRoundTrip(xs[1..]);
      assert Strings(xs)[1..] == Strings(xs[1..]);
      assert [xs[0]] + xs[1..] == xs;
    }
  }

  lemma SubscribeRoundTrip(w: seq<int>, n: seq<string>, c: seq<string>, and: bool)
    ensures FromJson(ToJson(SubscribeFrame(w, n, c, and))) == Some(SubscribeFrame(w, n, c, and))
  {
    var m := ToJson(SubscribeFrame(w, n, c, and)).members;
    LookupAt(m, 0, "service");
    LookupAt(m, 1, "action");
    LookupAt(m, 2, "worlds");
    LookupAt(m, 3, "eventNames");
    LookupAt(m, 4, "characters");
    LookupAt(m, 5, "logicalAndCharactersWithWorlds");
    NumbersRoundTrip(w);
    StringsRoundTrip(n);
    StringsRoundTrip(c);
  }

  lemma ClearSubscribeRoundTrip(w: seq<int>, c: seq<string>, n: seq<string>)
    ensures FromJson(ToJson(ClearSubscribeFrame(w, c, n))) == Some(ClearSubscribeFrame(w, c, n))
  {
    var m := ToJson(ClearSubscribeFrame(w, c, n)).members;
    LookupAt(m, 0, "service");
    LookupAt(m, 1, "action");
    LookupAt(m, 2, "worlds");
    LookupAt(m, 3, "characters");
    LookupAt(m, 4, "eventNames");
    LookupAbsent(m, "all");
    NumbersRoundTrip(w);
    StringsRoundTrip(n);
    StringsRoundTrip(c);
  }

  /** Every frame reads back as itself, so distinct frames go out as distinct objects. */
  lemma RoundTrip(f: ControlFrame)
    ensures FromJson(ToJson(f)) == Some(f)
  {
    match f
    case SubscribeFrame(w, n, c, and) => SubscribeRoundTrip(w, n, c, and);
    case ClearSubscribeFrame(w, c, n) => ClearSubscribeRoundTrip(w, c, n);
    case ClearAllFrame =>
      var m := ToJson(f).members;
      LookupAt(m, 0, "service");
      LookupAt(m, 1, "action");
      LookupAt(m, 2, "all");
  }

  /** Two frames that go out as the same object are the same frame. */
  lemma ToJsonInjective(f: ControlFrame, g: ControlFrame)
    requires ToJson(f) == ToJson(g)
    ensures f == g
  {
    RoundTrip(f);
    RoundTrip(g);
  }

  /** Which keys each frame carries, and in which order; only a subscribe carries the flag. */
  lemma FrameKeys(f: ControlFrame)
    ensures f.SubscribeFrame? ==>
      Keys(ToJson(f)) == ["service", "action", "worlds", "eventNames", "characters", "logicalAndCharactersWithWorlds"]
    ensures f.ClearSubscribeFrame? ==> Keys(ToJson(f)) == ["service", "action", "worlds", "characters", "eventNames"]
    ensures f.ClearAllFrame? ==> Keys(ToJson(f)) == ["service", "action", "all"]
    ensures "logicalAndCharactersWithWorlds" in Keys(ToJson(f)) <==> f.SubscribeFrame?
  {
  }

  /** A subscribe with the defaulted arguments goes out with `characters: ["all"]` and the flag `false`. */
  lemma DefaultSubscribeObject(worlds: seq<int>, eventNames: seq<string>)
    ensures ToJson(SubscribeFrame(worlds, eventNames, AllCharacters, DefaultLogicalAnd))
         == JObject([("service", JString("event")), ("action", JString("subscribe")),
                     ("worlds", JArray(Numbers(worlds))), ("eventNames", JArray(Strings(eventNames))),
                     ("characters", JArray([JString("all")])), ("logicalAndCharactersWithWorlds", JBool(false))])
  {
    assert Strings(AllCharacters) == [JString("all")];
  }

  /** Clearing everything always sends the same three-key object, `all` as the string `"true"`. */
  lemma ClearAllObject()
    ensures ToJson(ClearAllFrame)
         == JObject([("service", JString("event")), ("action", JString("clearSubscribe")), ("all", JString("true"))])
  {
  }
}
