/** Event metrics on the Kotlin side: the handle a metric receives from the native layer,
    the recording gate, the encoding of an event's extra keys into two parallel arrays,
    and the test-only read-back of recorded events from their JSON form. */
module Events {
  import opened Wrappers
  import opened Lifetimes
  import opened Json

  // ---------------------------------------------------------------------------
  // Recorded events and their identifiers

  /** An event as read back for tests. Its identifier is `Identifier(category, name)`. */
  datatype RecordedEventData = RecordedEventData(
    category: string,
    name: string,
    timestamp: int,
    extra: Option<map<string, string>>)

  /** The identifier of a metric: the name, prefixed with the category and a dot
      unless the category is empty. */
  function Identifier(category: string, name: string): (id: string)
    ensures |name| <= |id| && id[|id| - |name|..] == name
    ensures category == [] ==> id == name
    ensures category != [] ==>
      |id| == |category| + 1 + |name| && id[..|category|] == category && id[|category|] == '.'
  {
    if category == [] then name else category + "." + name
  }

  /** The position of the last `c` in `s`, if there is one. */
  function LastIndexOf(s: string, c: char): (r: Option<nat>)
    ensures r.Some? ==> r.value < |s| && s[r.value] == c
    ensures r.Some? ==> forall j :: r.value < j < |s| ==> s[j] != c
    ensures r.None? ==> forall j :: 0 <= j < |s| ==> s[j] != c
  {
    if s == [] then None
    else if s[|s| - 1] == c then Some(|s| - 1)
    else LastIndexOf(s[..|s| - 1], c)
  }

  /** Splits an identifier into category and name at its last dot. */
  function SplitIdentifier(id: string): (parts: (string, string))
  {
    match LastIndexOf(id, '.')
    case None => ("", id)
    case Some(i) => (id[..i], id[i + 1..])
  }

  /** A name without dots can be recovered, together with its category, from the identifier. */
  lemma IdentifierRoundTrip(category: string, name: string)
    requires '.' !in name
    ensures SplitIdentifier(Identifier(category, name)) == (category, name)
  {
  }

  // ---------------------------------------------------------------------------
  // The native layer

  /** The arguments of one `glean_new_event_metric` call. */
  datatype NewEventMetricCall = NewEventMetricCall(
    category: string,
    name: string,
    sendInPings: seq<string>,
    sendInPingsLen: int,
    lifetime: nat,
    disabled: bool,
    allowedExtraKeys: Option<seq<string>>,
    allowedExtraKeysLen: int)

  /** The arguments of one `glean_event_record` call: the key ordinals and the values
      travel as two parallel arrays of length `len`, or as two nulls and 0. */
  datatype EventRecordCall = EventRecordCall(
    gleanHandle: int,
    metricHandle: int,
    timestamp: int,
    keys: Option<seq<int>>,
    values: Option<seq<string>>,
    len: int)

  /** The native Glean layer as the Kotlin code sees it: the global Glean state, the
      answers of its foreign functions and a log of the effects of its foreign calls.
      Work handed to the dispatcher runs at once, in submission order. */
  class Native {
    /** `Glean.isInitialized()` */
    var initialized: bool
    /** `Glean.handle` */
    var gleanHandle: int
    /** Every metric created so far; handle `h` names `definitions[h - 1]`. */
    var definitions: seq<NewEventMetricCall>
    /** The handles for which `glean_event_should_record` answers true. */
    var recording: set<int>
    /** The `glean_event_record` calls made so far, in order. */
    var recorded: seq<EventRecordCall>
    /** The (handle, ping) pairs for which `glean_event_test_has_value` answers true. */
    var withValue: set<(int, string)>
    /** What `glean_event_test_get_value_as_json_string` returns, as parsed; a pair
        that is absent stands for a null pointer. */
    var eventsJson: map<(int, string), JsonText>

    /** `glean_new_event_metric`: registers a definition and hands out its non-zero handle. */
    method NewEventMetric(call: NewEventMetricCall) returns (handle: int)
      modifies this`definitions
      ensures definitions == old(definitions) + [call]
      ensures handle == |definitions| && handle != 0
    {
      definitions := definitions + [call];
      handle := |definitions|;
    }

    /** `glean_event_record` */
    method EventRecord(call: EventRecordCall)
      modifies this`recorded
      ensures recorded == old(recorded) + [call]
    {
      recorded := recorded + [call];
    }

    /** `glean_event_test_get_value_as_json_string`, None for a null pointer. */
    function EventsJson(handle: int, ping: string): (r: Option<JsonText>)
      reads this
      ensures r.None? <==> (handle, ping) !in eventsJson
      ensures r.Some? ==> r.value == eventsJson[(handle, ping)]
    {
      if (handle, ping) in eventsJson then Some(eventsJson[(handle, ping)]) else None
    }
  }

  // ---------------------------------------------------------------------------
  // Extra keys

  /** A constant of a metric's extra-keys enum, known by its declaration ordinal. */
  datatype ExtraKey = ExtraKey(ordinal: nat)

  /** `keys`, `values` and `len` carry exactly the entries of `extra`: both arrays
      have one slot per entry, slot i of both holds the same entry, and no entry is
      dropped or repeated. An absent map is two nulls and 0. */
  predicate EncodesExtra(
    extra: Option<map<ExtraKey, string>>, keys: Option<seq<int>>, values: Option<seq<string>>, len: int)
  {
    match extra
    case None => keys == None && values == None && len == 0
    case Some(m) =>
      && keys.Some? && values.Some?
      && |keys.value| == len && |values.value| == len && len == |m|
      && (forall i :: 0 <= i < len ==>
            keys.value[i] >= 0 && ExtraKey(keys.value[i]) in m && m[ExtraKey(keys.value[i])] == values.value[i])
      && (forall i, j :: 0 <= i < j < len ==> keys.value[i] != keys.value[j])
      && (forall k :: k in m ==> k.ordinal in keys.value)
  }

  /** `Map.toList()`: the entries of `m` as a list of pairs, in whatever order the map
      iterates them. */
  method ToList(m: map<ExtraKey, string>) returns (pairs: seq<(ExtraKey, string)>)
    ensures |pairs| == |m|
    ensures forall i :: 0 <= i < |pairs| ==> pairs[i].0 in m && m[pairs[i].0] == pairs[i].1
    ensures forall i, j :: 0 <= i < j < |pairs| ==> pairs[i].0 != pairs[j].0
    ensures forall k :: k in m ==> (k, m[k]) in pairs
  {
    pairs := [];
    var rest := m.Keys;
    while rest != {}
      invariant rest <= m.Keys
      invariant |pairs| + |rest| == |m.Keys|
      invariant forall i :: 0 <= i < |pairs| ==> pairs[i].0 in m && pairs[i].0 !in rest && m[pairs[i].0] == pairs[i].1
      invariant forall i, j :: 0 <= i < j < |pairs| ==> pairs[i].0 != pairs[j].0
      invariant forall k :: k in m && k !in rest ==> (k, m[k]) in pairs
      decreases rest
    {
      var k :| k in rest;
      pairs := pairs + [(k, m[k])];
      rest := rest - {k};
    }
  }

  /** The arguments `record`'s dispatched task builds for `glean_event_record` from the
      optional extra map: one list of pairs, read twice, keeps keys and values aligned. */
  method EncodeExtra(extra: Option<map<ExtraKey, string>>)
    returns (keys: Option<seq<int>>, values: Option<seq<string>>, len: int)
    ensures EncodesExtra(extra, keys, values, len)
  {
    keys, values, len := None, None, 0;
    if extra.Some? {
      var extraList := ToList(extra.value);
      var size := |extra.value|;
      keys := Some(seq(size, i requires 0 <= i < size => extraList[i].0.ordinal));
      values := Some(seq(size, i requires 0 <= i < size => extraList[i].1));
      len := size;
      forall k | k in extra.value ensures k.ordinal in keys.value {
        var i :| 0 <= i < |extraList| && extraList[i] == (k, extra.value[k]);
        assert keys.value[i] == k.ordinal;
      }
    }
  }

  /** The extra map that two parallel arrays stand for, pair by pair: the key with
      ordinal `keys[i]` carries `values[i]`. */
  function ExtraFromArrays(keys: seq<int>, values: seq<string>): map<ExtraKey, string>
    requires |keys| == |values|
    requires forall i :: 0 <= i < |keys| ==> keys[i] >= 0
  {
    if keys == [] then map[]
    else
      var n := |keys| - 1;
      ExtraFromArrays(keys[..n], values[..n])[ExtraKey(keys[n]) := values[n]]
  }

  lemma {:induction false} ExtraFromArraysEntries(keys: seq<int>, values: seq<string>)
    requires |keys| == |values|
    requires forall i :: 0 <= i < |keys| ==> keys[i] >= 0
    requires forall i, j :: 0 <= i < j < |keys| ==> keys[i] != keys[j]
    ensures forall i :: 0 <= i < |keys| ==>
              ExtraKey(keys[i]) in ExtraFromArrays(keys, values) && ExtraFromArrays(keys, values)[ExtraKey(keys[i])] == values[i]
    ensures forall k :: k in ExtraFromArrays(keys, values) ==> k.ordinal in keys
  {
    if keys != [] {
      var n := |keys| - 1;
      ExtraFromArraysEntries(keys[..n], values[..n]);
      assert forall i :: 0 <= i < n ==> keys[..n][i] == keys[i] && values[..n][i] == values[i];
    }
  }

  /** Reading the two arrays back pair by pair gives the recorded map again, whatever
      order the pairs were listed in. */
  lemma EncodeExtraRoundTrip(m: map<ExtraKey, string>, keys: seq<int>, values: seq<string>, len: int)
    requires EncodesExtra(Some(m), Some(keys), Some(values), len)
    ensures ExtraFromArrays(keys, values) == m
  {
    ExtraFromArraysEntries(keys, values);
    var decoded := ExtraFromArrays(keys, values);
    forall k | k in m ensures k in decoded && decoded[k] == m[k] {
      var i :| 0 <= i < len && keys[i] == k.ordinal;
      assert ExtraKey(keys[i]) == k;
    }
    forall k | k in decoded ensures k in m {
      var i :| 0 <= i < |keys| && keys[i] == k.ordinal;
      assert ExtraKey(keys[i]) == k;
    }
    assert decoded.Keys == m.Keys;
  }

  // ---------------------------------------------------------------------------
  // Reading events back from JSON

  /** The failures of the test-only queries, named after the exceptions they raise. */
  datatype TestError =
    | NullPointer    // no value: nothing stored, a null answer, or JSON that is not an array
    | JsonError      // an element of the array is not an event object
    | NoSuchElement  // no ping given and the metric is sent in no ping

  /** Every member of `fields` is a string. */
  predicate AllStrings(fields: map<string, JsonValue>)
  {
    forall k :: k in fields ==> fields[k].JString?
  }

  /** `obj` has a string category and name, an integer timestamp, and, when its `extra`
      member is an object, that object holds only strings. */
  predicate IsEventObject(obj: map<string, JsonValue>)
  {
    && GetString(obj, "category").Some?
    && GetString(obj, "name").Some?
    && GetLong(obj, "timestamp").Some?
    && (OptObject(obj, "extra").Some? ==> AllStrings(OptObject(obj, "extra").value))
  }

  predicate IsEvent(v: JsonValue)
  {
    v.JObject? && IsEventObject(v.members)
  }

  /** `ev` is the event that the JSON object `obj` stands for: category, name and
      timestamp are `obj`'s members, and `extra` is null exactly when `obj` has no
      `extra` object, and otherwise holds every member of that object. */
  predicate Describes(obj: map<string, JsonValue>, ev: RecordedEventData)
  {
    && GetString(obj, "category") == Some(ev.category)
    && GetString(obj, "name") == Some(ev.name)
    && GetLong(obj, "timestamp") == Some(ev.timestamp)
    && (ev.extra.None? <==> OptObject(obj, "extra").None?)
    && (ev.extra.Some? ==>
          var fields := OptObject(obj, "extra").value;
          && ev.extra.value.Keys == fields.Keys
          && forall k :: k in fields ==> fields[k] == JString(ev.extra.value[k]))
  }

  /** An object stands for an event exactly when it has the event shape. */
  lemma EventObjectDescribed(obj: map<string, JsonValue>)
    ensures IsEventObject(obj) <==> exists ev :: Describes(obj, ev)
  {
    if IsEventObject(obj) {
      var extra: Option<map<string, string>> := None;
      if OptObject(obj, "extra").Some? {
        var fields := OptObject(obj, "extra").value;
        extra := Some(map k | k in fields :: fields[k].s);
      }
      var ev := RecordedEventData(
        GetString(obj, "category").value, GetString(obj, "name").value, GetLong(obj, "timestamp").value, extra);
      assert Describes(obj, ev);
    }
  }

  /** An object stands for at most one event. */
  lemma DescribesUnique(obj: map<string, JsonValue>, a: RecordedEventData, b: RecordedEventData)
    requires Describes(obj, a) && Describes(obj, b)
    ensures a == b
  {
    if a.extra.Some? {
      var fields := OptObject(obj, "extra").value;
      forall k | k in fields ensures a.extra.value[k] == b.extra.value[k] {
        assert JString(a.extra.value[k]) == JString(b.extra.value[k]);
      }
      assert a.extra.value == b.extra.value;
    }
  }

  /** The non-empty array of event objects in a test query's answer, or None when
      the answer is "no value": a null pointer, text that is not a JSON array, or an
      empty array. */
  function EventArray(answer: Option<JsonText>): (r: Option<seq<JsonValue>>)
    ensures r.Some? <==> answer.Some? && answer.value.Parsed? && answer.value.value.JArray?
                         && answer.value.value.elems != []
    ensures r.Some? ==> answer.value.value.elems == r.value
  {
    if answer.Some? && answer.value.Parsed? && answer.value.value.JArray? && answer.value.value.elems != []
    then Some(answer.value.value.elems)
    else None
  }

  // ---------------------------------------------------------------------------
  // The metric

  class EventMetricType {
    var handle: int
    const sendInPings: seq<string>

    /** The internal constructor: wraps a handle that already exists. */
    constructor FromHandle(handle: int, sendInPings: seq<string>)
      ensures this.handle == handle && this.sendInPings == sendInPings
    {
      this.handle := handle;
      this.sendInPings := sendInPings;
    }

    /** The public constructor: starts from handle 0, then registers the metric with the
        native layer and keeps the handle it hands back. */
    constructor (
      native: Native, disabled: bool, category: string, lifetime: Lifetime, name: string,
      sendInPings: seq<string>, allowedExtraKeys: Option<seq<string>>)
      modifies native`definitions
      ensures this.sendInPings == sendInPings
      ensures native.definitions == old(native.definitions) + [NewEventMetricCall(
        category, name, sendInPings, |sendInPings|, Ordinal(lifetime), disabled,
        allowedExtraKeys, if allowedExtraKeys.Some? then |allowedExtraKeys.value| else 0)]
      ensures handle == |native.definitions| && handle != 0
    {
      this.handle := 0;
      this.sendInPings := sendInPings;
      new;
      var allowedExtraKeysLen := if allowedExtraKeys.Some? then |allowedExtraKeys.value| else 0;
      handle := native.NewEventMetric(NewEventMetricCall(
        category, name, sendInPings, |sendInPings|, Ordinal(lifetime), disabled,
        allowedExtraKeys, allowedExtraKeysLen));
    }

    /** `shouldRecord()`: Glean is initialized and the native layer lets this metric record. */
    predicate ShouldRecord(native: Native)
      reads this, native
      ensures !native.initialized ==> !ShouldRecord(native)
      ensures handle !in native.recording ==> !ShouldRecord(native)
    {
      native.initialized && handle in native.recording
    }

    /** `record(extra)`, with `now` the clock reading taken on the caller's thread. When
        the gate is closed nothing is recorded; otherwise exactly one `glean_event_record`
        call is appended, for this handle, with that timestamp and the encoded extras. */
    method Record(native: Native, extra: Option<map<ExtraKey, string>>, now: int)
      modifies native`recorded
      ensures !old(ShouldRecord(native)) ==> native.recorded == old(native.recorded)
      ensures old(ShouldRecord(native)) ==>
        && |native.recorded| == |old(native.recorded)| + 1
        && native.recorded[..|old(native.recorded)|] == old(native.recorded)
        && var call := native.recorded[|old(native.recorded)|];
           && call.gleanHandle == native.gleanHandle
           && call.metricHandle == handle
           && call.timestamp == now
           && EncodesExtra(extra, call.keys, call.values, call.len)
    {
      if !ShouldRecord(native) {
        return;
      }
      var timestamp := now;
      // The dispatched task, run at once.
      var keys, values, len := EncodeExtra(extra);
      native.EventRecord(EventRecordCall(native.gleanHandle, handle, timestamp, keys, values, len));
    }

    /** The ping a test query reads: the one given, or else the first ping the metric is
        sent in (None when there is none). */
    function PingOrDefault(pingName: Option<string>): (r: Option<string>)
      reads this
      ensures pingName.Some? ==> r == pingName
      ensures pingName.None? ==> (r.None? <==> sendInPings == [])
      ensures pingName.None? && r.Some? ==> r.value == sendInPings[0]
    {
      if pingName.Some? then pingName
      else if sendInPings == [] then None
      else Some(sendInPings[0])
    }

    /** `testHasValue(pingName)`: the native answer for this handle and the queried ping. */
    method TestHasValue(native: Native, pingName: Option<string>) returns (r: Result<bool, TestError>)
      ensures PingOrDefault(pingName).None? ==> r == Failure(NoSuchElement)
      ensures PingOrDefault(pingName).Some? ==>
        r == Success((handle, PingOrDefault(pingName).value) in native.withValue)
    {
      var ping := PingOrDefault(pingName);
      if ping.None? {
        return Failure(NoSuchElement);
      }
      r := Success((handle, ping.value) in native.withValue);
    }

    /** `deserializeEvent`: builds the event an object stands for, or fails with a JSON
        error when the object does not have the event shape. */
    method DeserializeEvent(jsonContent: map<string, JsonValue>) returns (r: Result<RecordedEventData, TestError>)
      ensures r.Success? <==> IsEventObject(jsonContent)
      ensures r.Success? ==> Describes(jsonContent, r.value)
      ensures r.Failure? ==> r.error == JsonError
    {
      var extra: Option<map<string, string>> := None;
      var it := OptObject(jsonContent, "extra");
      if it.Some? {
        var fields := it.value;
        var extraValues: map<string, string> := map[];
        // The member names, visited in whatever order the object lists them.
        var names := fields.Keys;
        while names != {}
          invariant names <= fields.Keys
          invariant extraValues.Keys == fields.Keys - names
          invariant forall k :: k in extraValues ==> fields[k] == JString(extraValues[k])
          decreases names
        {
          var n :| n in names;
          var value := GetString(fields, n);
          if value.None? {
            return Failure(JsonError);
          }
          extraValues := extraValues[n := value.value];
          names := names - {n};
        }
        extra := Some(extraValues);
      }
      var category := GetString(jsonContent, "category");
      var name := GetString(jsonContent, "name");
      var timestamp := GetLong(jsonContent, "timestamp");
      if category.None? || name.None? || timestamp.None? {
        return Failure(JsonError);
      }
      r := Success(RecordedEventData(category.value, name.value, timestamp.value, extra));
    }

    /** `testGetValue(pingName)`: the events recorded for the queried ping, one per array
        element and in array order. "No value" covers a null answer, unparsable text and
        an empty array alike; an element without the event shape is a JSON error. */
    method TestGetValue(native: Native, pingName: Option<string>)
      returns (r: Result<seq<RecordedEventData>, TestError>)
      ensures PingOrDefault(pingName).None? ==> r == Failure(NoSuchElement)
      ensures PingOrDefault(pingName).Some? ==>
        var events := EventArray(native.EventsJson(handle, PingOrDefault(pingName).value));
        && (events.None? ==> r == Failure(NullPointer))
        && (events.Some? ==>
              && (r.Success? <==> forall i :: 0 <= i < |events.value| ==> IsEvent(events.value[i]))
              && (r.Failure? ==> r.error == JsonError)
              && (r.Success? ==>
                    && |r.value| == |events.value|
                    && forall i :: 0 <= i < |r.value| ==>
                         events.value[i].JObject? && Describes(events.value[i].members, r.value[i])))
    {
      var ping := PingOrDefault(pingName);
      if ping.None? {
        return Failure(NoSuchElement);
      }
      var ptr := native.EventsJson(handle, ping.value);
      if ptr.None? {
        return Failure(NullPointer);
      }
      // A text that is not a JSON array makes `JSONArray` throw, turned into "no value".
      if !(ptr.value.Parsed? && ptr.value.value.JArray?) {
        return Failure(NullPointer);
      }
      var jsonRes := ptr.value.value.elems;
      if |jsonRes| == 0 {
        return Failure(NullPointer);
      }
      var result: seq<RecordedEventData> := [];
      for i := 0 to |jsonRes|
        invariant |result| == i
        invariant forall j :: 0 <= j < i ==> IsEvent(jsonRes[j]) && Describes(jsonRes[j].members, result[j])
      {
        if !jsonRes[i].JObject? {
          return Failure(JsonError);
        }
        var event := DeserializeEvent(jsonRes[i].members);
        if event.Failure? {
          return Failure(event.error);
        }
        result := result + [event.value];
      }
      r := Success(result);
    }
  }
}
