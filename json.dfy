/**
 * The JSON body of `traccar_send_json` / `sendJson`: one flat object that
 * starts with the device id, followed by `,"key":value` members in a fixed
 * order of its own. Numbers and flags are bare; strings, including the ISO
 * timestamp, are copied between quotes as they are.
 */
module Json {
  import opened Wrappers
  import opened Bytes
  import opened Positions
  import opened SpeedConversion
  import opened Timestamps
  import opened Client
  import opened Fields
  import opened FieldValues
  import opened JsonStrings

  /** The order in which the JSON body lists its members. */
  const JsonOrder: seq<Key> :=
    [Lat, Lon, Altitude, Speed, Heading, Hdop, Accuracy, Valid, Timestamp,
     Odometer, Batt, Charge, Event, Activity, DriverUniqueId, Cell, Wifi]

  /**
   * What each key of `JsonOrder` carries; `iso` is the formatted timestamp.
   * Unlike the query string, `charge` is sent only as `true`, and whatever
   * the battery level.
   */
  function JsonValues(pos: Position, iso: Text, fmt: Formatter, roundDown: bool): (vs: seq<Option<Value>>)
    ensures |vs| == |JsonOrder|
  {
    [ Fixed(pos.latitude, 7, fmt),
      Fixed(pos.longitude, 7, fmt),
      Fixed(pos.altitudeMeters, 1, fmt),
      KnotsValue(pos.speedKmh, roundDown),
      Fixed(pos.headingDeg, 1, fmt),
      Fixed(pos.hdop, 2, fmt),
      Fixed(pos.accuracyMeters, 1, fmt),
      FlagValue(pos.Valid()),
      if iso != [] then Some(FreeText(iso)) else None,
      Fixed(pos.odometer, 1, fmt),
      LevelValue(pos.Battery()),
      if pos.charging then Some(Bool(true)) else None,
      TextValue(pos.eventName),
      TextValue(pos.activityType),
      TextValue(pos.driverUniqueId),
      TextValue(pos.cell),
      TextValue(pos.wifi) ]
  }

  function JsonSlots(pos: Position, iso: Text, fmt: Formatter, roundDown: bool): (s: seq<Slot>)
    ensures SlotKeys(s) == JsonOrder
  {
    Zip(JsonOrder, JsonValues(pos, iso, fmt, roundDown))
  }

  /** The members after `id`. */
  function JsonFields(pos: Position, iso: Text, fmt: Formatter, roundDown: bool): seq<Field>
  {
    Present(JsonSlots(pos, iso, fmt, roundDown))
  }

  /** The place of each key in `JsonOrder`. */
  function JsonRank(k: Key): nat
  {
    match k
    case Lat => 0 case Lon => 1 case Altitude => 2 case Speed => 3 case Heading => 4
    case Hdop => 5 case Accuracy => 6 case Valid => 7 case Timestamp => 8
    case Odometer => 9 case Batt => 10 case Charge => 11 case Event => 12
    case Activity => 13 case DriverUniqueId => 14 case Cell => 15 case Wifi => 16
  }

  /** No key appears twice in `JsonOrder`. */
  lemma JsonOrderDistinct(vs: seq<Option<Value>>)
    requires |vs| == |JsonOrder|
    ensures DistinctKeys(Zip(JsonOrder, vs))
  {
    forall i, j | 0 <= i < j < |JsonOrder|
      ensures JsonOrder[i] != JsonOrder[j]
    {
      assert JsonRank(JsonOrder[i]) == i && JsonRank(JsonOrder[j]) == j;
    }
  }

  /** A JSON string literal, its contents copied without escaping. */
  function Quoted(t: Text): Text
  {
    "\"" + t + "\""
  }

  /** `,"key":`, the text before each member's value. */
  function Lead(k: Key): Text
  {
    ",\"" + Name(k) + "\":"
  }

  /** One member as the body appends it: `,"key":` and the value. */
  function JsonChunk(f: Field): Text
  {
    Lead(f.key) +
      match f.value
      case Number(d) => d
      case Bool(b) => BoolText(b)
      case FreeText(raw) => Quoted(raw)
  }

  function JsonPairs(fs: seq<Field>): Text
  {
    if fs == [] then [] else JsonChunk(fs[0]) + JsonPairs(fs[1..])
  }

  /** `{"id":"<device id>"`, the members, `}`. */
  function JsonBody(deviceId: Text, fs: seq<Field>): Text
  {
    "{" + "\"id\":\"" + deviceId + "\"" + JsonPairs(fs) + "}"
  }

  lemma {:induction false} JsonPairsAppend(a: seq<Field>, b: seq<Field>)
    ensures JsonPairs(a + b) == JsonPairs(a) + JsonPairs(b)
  {
    if a == [] {
      assert a + b == b;
    } else {
      assert (a + b)[0] == a[0] && (a + b)[1..] == a[1..] + b;
      JsonPairsAppend(a[1..], b);
    }
  }

  /** The members keep the order of `JsonOrder`. */
  lemma JsonFieldOrder(pos: Position, iso: Text, fmt: Formatter, roundDown: bool)
    ensures IsSubsequence(Keys(JsonFields(pos, iso, fmt, roundDown)), JsonOrder)
  {
    PresentOrder(JsonSlots(pos, iso, fmt, roundDown));
  }

  /**
   * A member is sent exactly when its test passes: doubles when not NaN,
   * `valid` when the flag is not negative, `timestamp` when its text is not
   * empty, `batt` when the level is not negative, `charge` when charging
   * (whatever the battery), strings when neither null nor empty.
   */
  lemma JsonPresence(pos: Position, iso: Text, fmt: Formatter, roundDown: bool)
    ensures var ks := Keys(JsonFields(pos, iso, fmt, roundDown));
      && (Lat in ks <==> pos.latitude.Some?)
      && (Lon in ks <==> pos.longitude.Some?)
      && (Altitude in ks <==> pos.altitudeMeters.Some?)
      && (Speed in ks <==> pos.speedKmh.Some?)
      && (Heading in ks <==> pos.headingDeg.Some?)
      && (Hdop in ks <==> pos.hdop.Some?)
      && (Accuracy in ks <==> pos.accuracyMeters.Some?)
      && (Valid in ks <==> pos.validFlag >= 0)
      && (Timestamp in ks <==> iso != [])
      && (Odometer in ks <==> pos.odometer.Some?)
      && (Batt in ks <==> pos.batteryPercent >= 0)
      && (Charge in ks <==> pos.charging)
      && (Event in ks <==> Provided(pos.eventName))
      && (Activity in ks <==> Provided(pos.activityType))
      && (DriverUniqueId in ks <==> Provided(pos.driverUniqueId))
      && (Cell in ks <==> Provided(pos.cell))
      && (Wifi in ks <==> Provided(pos.wifi))
  {
    var s := JsonSlots(pos, iso, fmt, roundDown);
    JsonOrderDistinct(JsonValues(pos, iso, fmt, roundDown));
    PresentKey(s, 0); PresentKey(s, 1); PresentKey(s, 2); PresentKey(s, 3);
    PresentKey(s, 4); PresentKey(s, 5); PresentKey(s, 6); PresentKey(s, 7);
    PresentKey(s, 8); PresentKey(s, 9); PresentKey(s, 10); PresentKey(s, 11);
    PresentKey(s, 12); PresentKey(s, 13); PresentKey(s, 14); PresentKey(s, 15);
    PresentKey(s, 16);
  }

  /** `valid` is `true` for any positive flag and `false` for 0; `charge` is never `false`. */
  lemma JsonFlagValues(pos: Position, iso: Text, fmt: Formatter, roundDown: bool)
    ensures var fs := JsonFields(pos, iso, fmt, roundDown);
      && (Field(Valid, Bool(true)) in fs <==> pos.validFlag > 0)
      && (Field(Valid, Bool(false)) in fs <==> pos.validFlag == 0)
      && (Field(Charge, Bool(true)) in fs <==> pos.charging)
      && Field(Charge, Bool(false)) !in fs
  {
    var s := JsonSlots(pos, iso, fmt, roundDown);
    JsonOrderDistinct(JsonValues(pos, iso, fmt, roundDown));
    PresentField(s, 7, Bool(true));
    PresentField(s, 7, Bool(false));
    PresentField(s, 11, Bool(true));
    PresentField(s, 11, Bool(false));
  }

  /**
   * With the resolved timestamp `ts`, the `timestamp` member is sent exactly
   * when `ts` is not 0, and then carries the ISO text of `ts`.
   */
  lemma JsonTimestamp(pos: Position, ts: U64, gmtime: I64 -> Tm, fmt: Formatter, roundDown: bool)
    ensures var iso := FormatIso8601(ts, gmtime); var fs := JsonFields(pos, iso, fmt, roundDown);
      && (Timestamp in Keys(fs) <==> ts != 0)
      && (Field(Timestamp, FreeText(iso)) in fs <==> ts != 0)
  {
    var iso := FormatIso8601(ts, gmtime);
    IsoEmptyIffZero(ts, gmtime);
    var S := JsonSlots(pos, iso, fmt, roundDown);
    JsonOrderDistinct(JsonValues(pos, iso, fmt, roundDown));
    StateSlotsAt(pos, iso, fmt, roundDown);
    assert S[8] == Slot(Timestamp, if iso != [] then Some(FreeText(iso)) else None);
    PresentKey(S, 8);
    PresentField(S, 8, FreeText(iso));
  }

  /** `batt` is the level in decimal when it is not negative. */
  lemma JsonBatteryValue(pos: Position, iso: Text, fmt: Formatter, roundDown: bool)
    requires pos.batteryPercent >= 0
    ensures Field(Batt, Number(Decimal(pos.batteryPercent as nat))) in JsonFields(pos, iso, fmt, roundDown)
  {
    JsonOrderDistinct(JsonValues(pos, iso, fmt, roundDown));
    PresentField(JsonSlots(pos, iso, fmt, roundDown), 10, Number(Decimal(pos.batteryPercent as nat)));
  }

  /** Free text is copied as it is, and only when neither null nor empty. */
  lemma JsonTextValues(pos: Position, iso: Text, fmt: Formatter, roundDown: bool, t: Text)
    ensures var fs := JsonFields(pos, iso, fmt, roundDown);
      && (Field(Event, FreeText(t)) in fs <==> Provided(pos.eventName) && pos.eventName.value == t)
      && (Field(Activity, FreeText(t)) in fs <==> Provided(pos.activityType) && pos.activityType.value == t)
      && (Field(DriverUniqueId, FreeText(t)) in fs <==> Provided(pos.driverUniqueId) && pos.driverUniqueId.value == t)
      && (Field(Cell, FreeText(t)) in fs <==> Provided(pos.cell) && pos.cell.value == t)
      && (Field(Wifi, FreeText(t)) in fs <==> Provided(pos.wifi) && pos.wifi.value == t)
  {
    var s := JsonSlots(pos, iso, fmt, roundDown);
    JsonOrderDistinct(JsonValues(pos, iso, fmt, roundDown));
    PresentField(s, 12, FreeText(t));
    PresentField(s, 13, FreeText(t));
    PresentField(s, 14, FreeText(t));
    PresentField(s, 15, FreeText(t));
    PresentField(s, 16, FreeText(t));
  }

  /**
   * Latitude and longitude are sent as `String(x, 7)` prints them, the
   * altitude with 1 decimal, and only when not NaN.
   */
  lemma JsonPlaceValues(pos: Position, iso: Text, fmt: Formatter, roundDown: bool, t: Text)
    ensures var fs := JsonFields(pos, iso, fmt, roundDown);
      && (Field(Lat, Number(t)) in fs <==> pos.latitude.Some? && t == fmt(pos.latitude.value, 7))
      && (Field(Lon, Number(t)) in fs <==> pos.longitude.Some? && t == fmt(pos.longitude.value, 7))
      && (Field(Altitude, Number(t)) in fs <==> pos.altitudeMeters.Some? && t == fmt(pos.altitudeMeters.value, 1))
  {
    var s := JsonSlots(pos, iso, fmt, roundDown);
    JsonOrderDistinct(JsonValues(pos, iso, fmt, roundDown));
    PresentField(s, 0, Number(t));
    PresentField(s, 1, Number(t));
    PresentField(s, 2, Number(t));
  }

  /** Heading, accuracy and odometer are sent with 1 decimal and the HDOP with 2, and only when not NaN. */
  lemma JsonMeasureValues(pos: Position, iso: Text, fmt: Formatter, roundDown: bool, t: Text)
    ensures var fs := JsonFields(pos, iso, fmt, roundDown);
      && (Field(Heading, Number(t)) in fs <==> pos.headingDeg.Some? && t == fmt(pos.headingDeg.value, 1))
      && (Field(Hdop, Number(t)) in fs <==> pos.hdop.Some? && t == fmt(pos.hdop.value, 2))
      && (Field(Accuracy, Number(t)) in fs <==> pos.accuracyMeters.Some? && t == fmt(pos.accuracyMeters.value, 1))
      && (Field(Odometer, Number(t)) in fs <==> pos.odometer.Some? && t == fmt(pos.odometer.value, 1))
  {
    var s := JsonSlots(pos, iso, fmt, roundDown);
    JsonOrderDistinct(JsonValues(pos, iso, fmt, roundDown));
    PresentField(s, 4, Number(t));
    PresentField(s, 5, Number(t));
    PresentField(s, 6, Number(t));
    PresentField(s, 9, Number(t));
  }

  /** The speed is sent in knots, rounded as configured. */
  lemma JsonSpeed(pos: Position, iso: Text, fmt: Formatter, roundDown: bool, kmh: real)
    requires pos.speedKmh == Some(kmh)
    ensures Field(Speed, Number(SignedDecimal(Knots(kmh, roundDown)))) in JsonFields(pos, iso, fmt, roundDown)
  {
    JsonOrderDistinct(JsonValues(pos, iso, fmt, roundDown));
    PresentField(JsonSlots(pos, iso, fmt, roundDown), 3, Number(SignedDecimal(Knots(kmh, roundDown))));
  }

  /**
   * The body is `{"id":"`, the device id, `"`, the members and `}`; the
   * members text starts right after the closing quote of the id.
   */
  lemma JsonEnvelope(deviceId: Text, fs: seq<Field>)
    ensures var b := JsonBody(deviceId, fs); var n := |deviceId|;
      && |b| == n + 9 + |JsonPairs(fs)|
      && b[..7] == "{\"id\":\"" && b[7..7 + n] == deviceId && b[7 + n] == '"'
      && b[8 + n..|b| - 1] == JsonPairs(fs) && b[|b| - 1] == '}'
  {
    EnvelopeLayout(deviceId, JsonPairs(fs));
  }

  lemma EnvelopeLayout(id: Text, p: Text)
    ensures var b := "{" + "\"id\":\"" + id + "\"" + p + "}"; var n := |id|;
      && |b| == n + 9 + |p|
      && b[..7] == "{\"id\":\"" && b[7..7 + n] == id && b[7 + n] == '"'
      && b[8 + n..|b| - 1] == p && b[|b| - 1] == '}'
  {
    var head: Text := "{" + "\"id\":\"";
    var tail: Text := id + "\"" + p + "}";
    var b := "{" + "\"id\":\"" + id + "\"" + p + "}";
    assert b == head + tail;
    assert |head| == 7;
    assert b[..7] == head;
    assert tail[..|id|] == id && tail[|id|] == '"' && tail[|id| + 1..|tail| - 1] == p;
  }

  /** A default position sends no member when the resolved timestamp is 0. */
  lemma JsonDefaultFields(iso: Text, fmt: Formatter, roundDown: bool)
    requires iso == []
    ensures JsonFields(Default, iso, fmt, roundDown) == []
  {
    var vs := JsonValues(Default, iso, fmt, roundDown);
    forall i | 0 <= i < |vs|
      ensures vs[i].None?
    {
      DefaultAllAbsent();
    }
    var S := JsonSlots(Default, iso, fmt, roundDown);
    assert forall i :: 0 <= i < |S| ==> S[i].value == vs[i];
    PresentNone(S);
  }

  /** A default position with no clock reading gives just the id: `{"id":"<device id>"}`. */
  lemma JsonDefault(deviceId: Text, now: I64, gmtime: I64 -> Tm, fmt: Formatter, roundDown: bool)
    requires now <= 100000
    ensures JsonBody(deviceId, JsonFields(Default, FormatIso8601(ResolveTimestamp(Default.timestampMs, now), gmtime), fmt, roundDown))
         == "{\"id\":\"" + deviceId + "\"}"
  {
    JsonDefaultFields(FormatIso8601(ResolveTimestamp(Default.timestampMs, now), gmtime), fmt, roundDown);
    assert "{" + "\"id\":\"" + deviceId + "\"" + [] + "}" == "{\"id\":\"" + deviceId + "\"}";
  }

  /** The body after the lines for the first `k` slots of `S`, built on `head`. */
  ghost predicate Built(body: Text, head: Text, S: seq<Slot>, k: nat)
  {
    k <= |S| && body == head + JsonPairs(Present(S[..k]))
  }

  /** The member of slot `k` follows the members of the slots before it. */
  lemma ChunkStep(S: seq<Slot>, k: nat, v: Value)
    requires k < |S| && S[k].value == Some(v)
    ensures JsonPairs(Present(S[..k + 1])) == JsonPairs(Present(S[..k])) + JsonChunk(Field(S[k].key, v))
  {
    var f := Field(S[k].key, v);
    assert S[..k + 1] == S[..k] + [S[k]];
    PresentSnoc(S[..k], S[k]);
    assert Opt(S[k].key, S[k].value) == [f];
    JsonPairsAppend(Present(S[..k]), [f]);
    assert JsonPairs([f]) == JsonChunk(f) by {
      assert [f][1..] == [];
    }
  }

  /** The pieces of the line for slot `k`, appended to `before`, make one more member. */
  lemma Sent(before: Text, after: Text, head: Text, S: seq<Slot>, k: nat, v: Value)
    requires Built(before, head, S, k) && k < |S| && S[k].value == Some(v)
    requires after == before + JsonChunk(Field(S[k].key, v))
    ensures Built(after, head, S, k + 1)
  {
    ChunkStep(S, k, v);
    Extend(before, after, head, JsonPairs(Present(S[..k])), JsonPairs(Present(S[..k + 1])), JsonChunk(Field(S[k].key, v)));
  }

  lemma Extend(before: Text, after: Text, head: Text, p: Text, q: Text, c: Text)
    requires before == head + p && q == p + c && after == before + c
    ensures after == head + q
  {
    assert head + p + c == head + (p + c);
  }

  /** A slot whose test fails leaves the body as it is. */
  lemma Skipped(body: Text, head: Text, S: seq<Slot>, k: nat)
    requires Built(body, head, S, k) && k < |S| && S[k].value == None
    ensures Built(body, head, S, k + 1)
  {
    assert S[..k + 1] == S[..k] + [S[k]];
    PresentSnoc(S[..k], S[k]);
    assert Present(S[..k]) + [] == Present(S[..k]);
  }

  /** `body += ",\"key\":"; body += digits;` */
  lemma SentNumber(before: Text, head: Text, S: seq<Slot>, k: nat, d: Text)
    requires Built(before, head, S, k) && k < |S| && S[k].value == Some(Number(d))
    ensures Built(before + Lead(S[k].key) + d, head, S, k + 1)
  {
    assert before + Lead(S[k].key) + d == before + JsonChunk(Field(S[k].key, Number(d)));
    Sent(before, before + Lead(S[k].key) + d, head, S, k, Number(d));
  }

  /** `body += ",\"key\":"; body += flag ? "true" : "false";` */
  lemma SentBool(before: Text, head: Text, S: seq<Slot>, k: nat, b: bool)
    requires Built(before, head, S, k) && k < |S| && S[k].value == Some(Bool(b))
    ensures Built(before + Lead(S[k].key) + BoolText(b), head, S, k + 1)
  {
    assert before + Lead(S[k].key) + BoolText(b) == before + JsonChunk(Field(S[k].key, Bool(b)));
    Sent(before, before + Lead(S[k].key) + BoolText(b), head, S, k, Bool(b));
  }

  /** `body += ",\"key\":\""; body += text; body += "\"";` */
  lemma SentString(before: Text, head: Text, S: seq<Slot>, k: nat, raw: Text)
    requires Built(before, head, S, k) && k < |S| && S[k].value == Some(FreeText(raw))
    ensures Built(before + Lead(S[k].key) + "\"" + raw + "\"", head, S, k + 1)
  {
    assert before + Lead(S[k].key) + "\"" + raw + "\"" == before + JsonChunk(Field(S[k].key, FreeText(raw)));
    Sent(before, before + Lead(S[k].key) + "\"" + raw + "\"", head, S, k, FreeText(raw));
  }

  /** Slot by slot, what the lines of the JSON builder test and send. */
  lemma PlaceSlotsAt(pos: Position, iso: Text, fmt: Formatter, roundDown: bool)
    ensures var S := JsonSlots(pos, iso, fmt, roundDown);
      && |S| == 17
      && S[0] == Slot(Lat, Fixed(pos.latitude, 7, fmt))
      && S[1] == Slot(Lon, Fixed(pos.longitude, 7, fmt))
      && S[2] == Slot(Altitude, Fixed(pos.altitudeMeters, 1, fmt))
  {
    var vs := JsonValues(pos, iso, fmt, roundDown);
    assert vs[0] == Fixed(pos.latitude, 7, fmt);
    assert vs[1] == Fixed(pos.longitude, 7, fmt);
    assert vs[2] == Fixed(pos.altitudeMeters, 1, fmt);
  }

  lemma MotionSlotsAt(pos: Position, iso: Text, fmt: Formatter, roundDown: bool)
    ensures var S := JsonSlots(pos, iso, fmt, roundDown);
      && |S| == 17
      && S[3] == Slot(Speed, KnotsValue(pos.speedKmh, roundDown))
      && S[4] == Slot(Heading, Fixed(pos.headingDeg, 1, fmt))
      && S[5] == Slot(Hdop, Fixed(pos.hdop, 2, fmt))
      && S[6] == Slot(Accuracy, Fixed(pos.accuracyMeters, 1, fmt))
  {
    var vs := JsonValues(pos, iso, fmt, roundDown);
    assert vs[3] == KnotsValue(pos.speedKmh, roundDown);
    assert vs[4] == Fixed(pos.headingDeg, 1, fmt);
    assert vs[5] == Fixed(pos.hdop, 2, fmt);
    assert vs[6] == Fixed(pos.accuracyMeters, 1, fmt);
  }

  lemma StateSlotsAt(pos: Position, iso: Text, fmt: Formatter, roundDown: bool)
    ensures var S := JsonSlots(pos, iso, fmt, roundDown);
      && |S| == 17
      && S[7] == Slot(Valid, FlagValue(pos.Valid()))
      && S[8] == Slot(Timestamp, if iso != [] then Some(FreeText(iso)) else None)
      && S[9] == Slot(Odometer, Fixed(pos.odometer, 1, fmt))
      && S[10] == Slot(Batt, LevelValue(pos.Battery()))
      && S[11] == Slot(Charge, if pos.charging then Some(Bool(true)) else None)
  {
    var vs := JsonValues(pos, iso, fmt, roundDown);
    assert vs[7] == FlagValue(pos.Valid());
    assert vs[8] == if iso != [] then Some(FreeText(iso)) else None;
    assert vs[9] == Fixed(pos.odometer, 1, fmt);
    assert vs[10] == LevelValue(pos.Battery());
    assert vs[11] == if pos.charging then Some(Bool(true)) else None;
  }

  lemma TextSlotsAt(pos: Position, iso: Text, fmt: Formatter, roundDown: bool)
    ensures var S := JsonSlots(pos, iso, fmt, roundDown);
      && |S| == 17
      && S[12] == Slot(Event, TextValue(pos.eventName))
      && S[13] == Slot(Activity, TextValue(pos.activityType))
      && S[14] == Slot(DriverUniqueId, TextValue(pos.driverUniqueId))
      && S[15] == Slot(Cell, TextValue(pos.cell))
      && S[16] == Slot(Wifi, TextValue(pos.wifi))
  {
    var vs := JsonValues(pos, iso, fmt, roundDown);
    assert vs[12] == TextValue(pos.eventName);
    assert vs[13] == TextValue(pos.activityType);
    assert vs[14] == TextValue(pos.driverUniqueId);
    assert vs[15] == TextValue(pos.cell);
    assert vs[16] == TextValue(pos.wifi);
  }

  /** The lines for latitude, longitude and altitude. */
  method AppendPlace(body: Text, ghost head: Text, ghost S: seq<Slot>, pos: Position, fmt: Formatter)
    returns (r: Text)
    requires |S| == 17 && Built(body, head, S, 0)
    requires S[0] == Slot(Lat, Fixed(pos.latitude, 7, fmt)) && S[1] == Slot(Lon, Fixed(pos.longitude, 7, fmt))
    requires S[2] == Slot(Altitude, Fixed(pos.altitudeMeters, 1, fmt))
    ensures Built(r, head, S, 3)
  {
    r := body;
    r := AppendFixed(r, head, S, 0, Lat, pos.latitude, 7, fmt);
    r := AppendFixed(r, head, S, 1, Lon, pos.longitude, 7, fmt);
    r := AppendFixed(r, head, S, 2, Altitude, pos.altitudeMeters, 1, fmt);
  }

  /** The lines for speed, heading, HDOP and accuracy. */
  method AppendMotion(body: Text, ghost head: Text, ghost S: seq<Slot>, pos: Position, fmt: Formatter, roundDown: bool)
    returns (r: Text)
    requires |S| == 17 && Built(body, head, S, 3)
    requires S[3] == Slot(Speed, KnotsValue(pos.speedKmh, roundDown)) && S[4] == Slot(Heading, Fixed(pos.headingDeg, 1, fmt))
    requires S[5] == Slot(Hdop, Fixed(pos.hdop, 2, fmt)) && S[6] == Slot(Accuracy, Fixed(pos.accuracyMeters, 1, fmt))
    ensures Built(r, head, S, 7)
  {
    r := body;
    if pos.speedKmh.Some? {
      var knots := SignedDecimal(Knots(pos.speedKmh.value, roundDown));
      SentNumber(r, head, S, 3, knots);
      r := r + Lead(Speed); r := r + knots;
    } else {
      Skipped(r, head, S, 3);
    }
    r := AppendFixed(r, head, S, 4, Heading, pos.headingDeg, 1, fmt);
    r := AppendFixed(r, head, S, 5, Hdop, pos.hdop, 2, fmt);
    r := AppendFixed(r, head, S, 6, Accuracy, pos.accuracyMeters, 1, fmt);
  }

  /** The lines for validity and the ISO timestamp. */
  method AppendState(body: Text, ghost head: Text, ghost S: seq<Slot>, pos: Position, iso: Text)
    returns (r: Text)
    requires |S| == 17 && Built(body, head, S, 7)
    requires S[7] == Slot(Valid, FlagValue(pos.Valid()))
    requires S[8] == Slot(Timestamp, if iso != [] then Some(FreeText(iso)) else None)
    ensures Built(r, head, S, 9)
  {
    r := body;
    if pos.validFlag >= 0 {
      SentBool(r, head, S, 7, pos.validFlag != 0);
      r := r + Lead(Valid); r := r + BoolText(pos.validFlag != 0);
    } else {
      Skipped(r, head, S, 7);
    }
    r := AppendText(r, head, S, 8, Timestamp, Some(iso));
  }

  /** The lines for the odometer, the battery level and charging. */
  method AppendCounters(body: Text, ghost head: Text, ghost S: seq<Slot>, pos: Position, fmt: Formatter)
    returns (r: Text)
    requires |S| == 17 && Built(body, head, S, 9)
    requires S[9] == Slot(Odometer, Fixed(pos.odometer, 1, fmt))
    requires S[10] == Slot(Batt, LevelValue(pos.Battery()))
    requires S[11] == Slot(Charge, if pos.charging then Some(Bool(true)) else None)
    ensures Built(r, head, S, 12)
  {
    r := body;
    r := AppendFixed(r, head, S, 9, Odometer, pos.odometer, 1, fmt);
    if pos.batteryPercent >= 0 {
      SentNumber(r, head, S, 10, SignedDecimal(pos.batteryPercent));
      r := r + Lead(Batt); r := r + SignedDecimal(pos.batteryPercent);
    } else {
      Skipped(r, head, S, 10);
    }
    if pos.charging {
      SentBool(r, head, S, 11, true);
      r := r + Lead(Charge) + "true";
    } else {
      Skipped(r, head, S, 11);
    }
  }

  /**
   * One line for a double member: unless the value is NaN, `,"key":` and
   * the value printed with `decimals` places.
   */
  method AppendFixed(body: Text, ghost head: Text, ghost S: seq<Slot>, ghost k: nat, key: Key, x: Option<real>, decimals: nat, fmt: Formatter)
    returns (r: Text)
    requires k < |S| && Built(body, head, S, k)
    requires S[k] == Slot(key, Fixed(x, decimals, fmt))
    ensures Built(r, head, S, k + 1)
  {
    r := body;
    if x.Some? {
      SentNumber(r, head, S, k, fmt(x.value, decimals));
      r := r + Lead(key); r := r + fmt(x.value, decimals);
    } else {
      Skipped(r, head, S, k);
    }
  }

  /**
   * One line for a string member (free text, or the ISO timestamp): when the
   * text is neither null nor empty, `,"key":"`, the text as it is, and `"`.
   */
  method AppendText(body: Text, ghost head: Text, ghost S: seq<Slot>, ghost k: nat, key: Key, s: Option<Text>)
    returns (r: Text)
    requires k < |S| && Built(body, head, S, k)
    requires S[k] == Slot(key, TextValue(s))
    ensures Built(r, head, S, k + 1)
  {
    r := body;
    if s.Some? && s.value != [] {
      SentString(r, head, S, k, s.value);
      r := r + Lead(key) + "\""; r := r + s.value; r := r + "\"";
    } else {
      Skipped(r, head, S, k);
    }
  }

  /** The lines for the event, the activity, the driver, the cell towers and the Wi-Fi access points. */
  method AppendTexts(body: Text, ghost head: Text, ghost S: seq<Slot>, pos: Position)
    returns (r: Text)
    requires |S| == 17 && Built(body, head, S, 12)
    requires S[12] == Slot(Event, TextValue(pos.eventName)) && S[13] == Slot(Activity, TextValue(pos.activityType))
    requires S[14] == Slot(DriverUniqueId, TextValue(pos.driverUniqueId))
    requires S[15] == Slot(Cell, TextValue(pos.cell)) && S[16] == Slot(Wifi, TextValue(pos.wifi))
    ensures r == head + JsonPairs(Present(S))
  {
    r := AppendText(body, head, S, 12, Event, pos.eventName);
    r := AppendText(r, head, S, 13, Activity, pos.activityType);
    r := AppendText(r, head, S, 14, DriverUniqueId, pos.driverUniqueId);
    r := AppendText(r, head, S, 15, Cell, pos.cell);
    r := AppendText(r, head, S, 16, Wifi, pos.wifi);
    Finished(r, head, S, Present(S));
  }

  /** Every member line of the JSON builder, in order. */
  method AppendMembers(body: Text, pos: Position, iso: Text, fmt: Formatter, roundDown: bool)
    returns (r: Text)
    ensures r == body + JsonPairs(JsonFields(pos, iso, fmt, roundDown))
  {
    ghost var S := JsonSlots(pos, iso, fmt, roundDown);
    PlaceSlotsAt(pos, iso, fmt, roundDown);
    MotionSlotsAt(pos, iso, fmt, roundDown);
    StateSlotsAt(pos, iso, fmt, roundDown);
    TextSlotsAt(pos, iso, fmt, roundDown);
    assert Built(body, body, S, 0) by {
      assert S[..0] == [];
    }
    r := AppendPlace(body, body, S, pos, fmt);
    r := AppendMotion(r, body, S, pos, fmt, roundDown);
    r := AppendState(r, body, S, pos, iso);
    r := AppendCounters(r, body, S, pos, fmt);
    r := AppendTexts(r, body, S, pos);
  }

  /** After the lines of all slots, the body holds the members of all of them. */
  lemma Finished(body: Text, head: Text, S: seq<Slot>, fs: seq<Field>)
    requires Built(body, head, S, |S|) && fs == Present(S)
    ensures body == head + JsonPairs(fs)
  {
    assert S[..|S|] == S;
  }

  /**
   * The body assembly of `traccar_send_json` / `sendJson`: an Arduino
   * `String` grown by `+=`, equal to `JsonBody` of the members.
   */
  method BuildJsonBody(deviceId: Text, pos: Position, iso: Text, fmt: Formatter, roundDown: bool)
    returns (body: Text)
    ensures body == JsonBody(deviceId, JsonFields(pos, iso, fmt, roundDown))
  {
    body := "{";
    body := body + "\"id\":\""; body := body + deviceId; body := body + "\"";
    body := AppendMembers(body, pos, iso, fmt, roundDown);
    body := body + "}";
  }

  /** What `traccar_send_json` / `sendJson` hand to the HTTP client: the base URL and the body. */
  datatype JsonPost = JsonPost(url: Text, body: Text)

  /**
   * `traccar_send_json` up to the POST. A null client or position, or a
   * null or empty device id, sends nothing; otherwise the body goes to the
   * base URL, with the timestamp resolved against the clock reading `now`
   * and formatted with the calendar conversion `gmtime`.
   */
  method PrepareJson(c: Client?, pos: Option<Position>, now: I64, gmtime: I64 -> Tm, fmt: Formatter, roundDown: bool)
    returns (r: Option<JsonPost>)
    ensures r.None? <==> c == null || pos.None? || !Provided(c.deviceId)
    ensures r.Some? ==>
      && r.value.url == BaseUrl(c.Snapshot())
      && r.value.body == JsonBody(c.deviceId.value,
           JsonFields(pos.value, FormatIso8601(ResolveTimestamp(pos.value.timestampMs, now), gmtime), fmt, roundDown))
  {
    if c == null || pos.None? || c.deviceId.None? || c.deviceId.value == [] {
      return None;
    }
    var base := BaseUrl(c.Snapshot());
    var ts := ResolveTimestamp(pos.value.timestampMs, now);
    var iso := FormatIso8601(ts, gmtime);
    var body := BuildJsonBody(c.deviceId.value, pos.value, iso, fmt, roundDown);
    r := Some(JsonPost(base, body));
  }

  /**
   * A position that reports nothing but its event and activity, sent
   * without a timestamp, has those two members and no other.
   */
  lemma TextOnlyFields(pos: Position, fmt: Formatter, roundDown: bool)
    requires pos.latitude.None? && pos.longitude.None? && pos.altitudeMeters.None?
    requires pos.speedKmh.None? && pos.headingDeg.None? && pos.hdop.None?
    requires pos.accuracyMeters.None? && pos.odometer.None?
    requires pos.validFlag < 0 && pos.batteryPercent < 0 && !pos.charging
    requires !Provided(pos.driverUniqueId) && !Provided(pos.cell) && !Provided(pos.wifi)
    ensures JsonFields(pos, [], fmt, roundDown)
         == Opt(Event, TextValue(pos.eventName)) + Opt(Activity, TextValue(pos.activityType))
  {
    var vs := JsonValues(pos, [], fmt, roundDown);
    assert vs == [None, None, None, None, None, None, None, None, None, None, None, None,
                  TextValue(pos.eventName), TextValue(pos.activityType), None, None, None];
    var S := JsonSlots(pos, [], fmt, roundDown);
    assert forall j :: 0 <= j < |S| ==> S[j].value == vs[j];
    assert S[12].key == Event && S[13].key == Activity;
    PresentPair(S, 12);
  }

  lemma QuotedSplice(a: Text, lead: Text, b: Text)
    ensures Quoted(a + "\"" + lead + "\"" + b) == Quoted(a) + lead + Quoted(b)
  {
  }

  /**
   * An event name holding a closing quote, the activity member's lead and
   * an opening quote is written as an event member followed by an
   * activity member.
   */
  lemma SpliceChunk(a: Text, b: Text)
    ensures JsonChunk(Field(Event, FreeText(a + "\"" + Lead(Activity) + "\"" + b)))
         == JsonChunk(Field(Event, FreeText(a))) + JsonChunk(Field(Activity, FreeText(b)))
  {
    QuotedSplice(a, Lead(Activity), b);
    Regroup3(Lead(Event), Quoted(a), Lead(Activity), Quoted(b));
  }

  lemma Regroup3(w: Text, x: Text, y: Text, z: Text)
    ensures w + (x + y + z) == w + x + (y + z)
  {
  }

  lemma PairsOfTwo(f: Field, g: Field)
    ensures JsonPairs([f]) == JsonChunk(f)
    ensures JsonPairs([f, g]) == JsonChunk(f) + JsonChunk(g)
  {
    assert [f][1..] == [];
    assert [f, g][1..] == [g];
    assert [g][1..] == [];
  }

  /**
   * The strings go into the body unescaped, so an event name holding
   * `","activity":"` between two texts gives the very body of a different
   * position, one whose event and activity are those two texts: a reader
   * cannot tell the two apart.
   */
  lemma UnescapedCollision(deviceId: Text, a: Text, b: Text, fmt: Formatter, roundDown: bool)
    requires a != [] && b != []
    ensures var p1 := Default.(eventName := Some(a + "\"" + Lead(Activity) + "\"" + b));
      var p2 := Default.(eventName := Some(a), activityType := Some(b));
      && p1 != p2
      && JsonBody(deviceId, JsonFields(p1, [], fmt, roundDown)) == JsonBody(deviceId, JsonFields(p2, [], fmt, roundDown))
  {
    var x := a + "\"" + Lead(Activity) + "\"" + b;
    var p1 := Default.(eventName := Some(x));
    var p2 := Default.(eventName := Some(a), activityType := Some(b));
    DefaultAllAbsent();
    TextOnlyFields(p1, fmt, roundDown);
    TextOnlyFields(p2, fmt, roundDown);
    var f, g, h := Field(Event, FreeText(x)), Field(Event, FreeText(a)), Field(Activity, FreeText(b));
    assert JsonFields(p1, [], fmt, roundDown) == [f];
    assert JsonFields(p2, [], fmt, roundDown) == [g, h];
    PairsOfTwo(f, f);
    PairsOfTwo(g, h);
    SpliceChunk(a, b);
    assert p1.activityType != p2.activityType;
  }

  /** The body as section 7 of RFC 8259 requires it: every string escaped. */
  function EscapedChunk(f: Field): Text
  {
    Lead(f.key) +
      match f.value
      case Number(d) => d
      case Bool(b) => BoolText(b)
      case FreeText(raw) => "\"" + Escape(raw) + "\""
  }

  function EscapedPairs(fs: seq<Field>): Text
  {
    if fs == [] then [] else EscapedChunk(fs[0]) + EscapedPairs(fs[1..])
  }

  function EscapedBody(deviceId: Text, fs: seq<Field>): Text
  {
    "{" + "\"id\":\"" + Escape(deviceId) + "\"" + EscapedPairs(fs) + "}"
  }

  lemma Regroup(a: Text, e: Text, q: Text, p: Text, z: Text)
    ensures a + e + q + p + z == a + (e + q + (p + z))
  {
  }

  /**
   * The device id's string literal ends at the quote written after it, and
   * its contents are exactly the escaped id, which `UnescapeEscape` reads
   * back as the id.
   */
  lemma EscapedReadsId(deviceId: Text, fs: seq<Field>)
    ensures var b := EscapedBody(deviceId, fs); var e := Escape(deviceId);
      && |b| > 7 + |e|
      && StringEnd(b[7..]) == Some(|e|) && b[7..7 + |e|] == e
  {
    var head: Text := "{" + "\"id\":\"";
    Regroup(head, Escape(deviceId), "\"", EscapedPairs(fs), "}");
    EndsAt(EscapedBody(deviceId, fs), head, deviceId, EscapedPairs(fs) + "}");
    SliceAfter(EscapedBody(deviceId, fs), head, Escape(deviceId), "\"", EscapedPairs(fs) + "}");
  }

  /**
   * The first member's string literal ends at the quote written after it,
   * whatever the value holds, and its contents are exactly the escaped
   * value, which `UnescapeEscape` reads back as the value.
   */
  lemma EscapedReadsFirst(deviceId: Text, k: Key, v: Text, fs: seq<Field>)
    ensures var b := EscapedBody(deviceId, [Field(k, FreeText(v))] + fs);
      var i := |FirstHead(deviceId, k)|;
      && |b| > i + |Escape(v)|
      && StringEnd(b[i..]) == Some(|Escape(v)|) && b[i..i + |Escape(v)|] == Escape(v)
  {
    var b := EscapedBody(deviceId, [Field(k, FreeText(v))] + fs);
    var head := FirstHead(deviceId, k);
    var rest := EscapedPairs(fs) + "}";
    FirstSplit(deviceId, k, v, fs);
    EndsAt(b, head, v, rest);
    SliceAfter(b, head, Escape(v), "\"", rest);
  }

  /** Everything an escaped body holds before the first member's string contents. */
  function FirstHead(deviceId: Text, k: Key): (h: Text)
    ensures |h| == 9 + |Escape(deviceId)| + |Lead(k)|
  {
    "{" + "\"id\":\"" + Escape(deviceId) + "\"" + Lead(k) + "\""
  }

  lemma FirstSplit(deviceId: Text, k: Key, v: Text, fs: seq<Field>)
    ensures EscapedBody(deviceId, [Field(k, FreeText(v))] + fs)
         == FirstHead(deviceId, k) + (Escape(v) + "\"" + (EscapedPairs(fs) + "}"))
  {
    var f := Field(k, FreeText(v));
    var pairs := EscapedPairs([f] + fs);
    assert pairs == Lead(k) + ("\"" + Escape(v) + "\"") + EscapedPairs(fs) by {
      EscapedPairsCons(f, fs);
    }
    FirstLayout(EscapedBody(deviceId, [f] + fs), "{" + "\"id\":\"", Escape(deviceId), Lead(k), Escape(v), EscapedPairs(fs), pairs);
  }

  lemma EscapedPairsCons(f: Field, fs: seq<Field>)
    ensures EscapedPairs([f] + fs) == EscapedChunk(f) + EscapedPairs(fs)
  {
    assert ([f] + fs)[0] == f && ([f] + fs)[1..] == fs;
  }

  lemma FirstLayout(body: Text, open: Text, id: Text, lead: Text, e: Text, p: Text, pairs: Text)
    requires body == open + id + "\"" + pairs + "}"
    requires pairs == lead + ("\"" + e + "\"") + p
    ensures body == (open + id + "\"" + lead + "\"") + (e + "\"" + (p + "}"))
  {
  }

  /**
   * With escaping, bodies whose first members are strings with the same key
   * but different values always differ, whatever follows them.
   */
  lemma EscapedFirstDecides(deviceId: Text, k: Key, x: Text, y: Text, fs: seq<Field>, gs: seq<Field>)
    requires x != y
    ensures EscapedBody(deviceId, [Field(k, FreeText(x))] + fs) != EscapedBody(deviceId, [Field(k, FreeText(y))] + gs)
  {
    EscapedReadsFirst(deviceId, k, x, fs);
    EscapedReadsFirst(deviceId, k, y, gs);
    if EscapedBody(deviceId, [Field(k, FreeText(x))] + fs) == EscapedBody(deviceId, [Field(k, FreeText(y))] + gs) {
      EscapeInjective(x, y);
    }
  }
}
