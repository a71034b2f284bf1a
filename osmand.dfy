/**
 * The OsmAnd query string (`traccar_build_osmand_url`) and form body
 * (`traccar_build_osmand_form_body`): `id=<device>` followed by
 * `&key=value` pairs, free text percent-encoded, written into a
 * caller-owned buffer with truncation.
 */
module OsmAnd {
  import opened Wrappers
  import opened Bytes
  import opened Buffer
  import opened PercentEncoding
  import opened Positions
  import opened SpeedConversion
  import opened Timestamps
  import opened Client
  import opened Fields
  import opened FieldValues

  /** The order in which the query string and the form body list their fields. */
  const QueryOrder: seq<Key> :=
    [Lat, Lon, Altitude, Hdop, Speed, Valid, Timestamp, Accuracy, Heading,
     Batt, Charge, DriverUniqueId, Cell, Wifi, Event, Activity, Odometer]

  /** What each key of `QueryOrder` carries, for the resolved timestamp `ts`. */
  function QueryValues(pos: Position, ts: U64, fmt: Formatter, roundDown: bool): (vs: seq<Option<Value>>)
    ensures |vs| == |QueryOrder|
  {
    [ Fixed(pos.latitude, 7, fmt),
      Fixed(pos.longitude, 7, fmt),
      Fixed(pos.altitudeMeters, 1, fmt),
      Fixed(pos.hdop, 2, fmt),
      KnotsValue(pos.speedKmh, roundDown),
      FlagValue(pos.Valid()),
      if ts != 0 then Some(Number(Decimal(ts))) else None,
      Fixed(pos.accuracyMeters, 1, fmt),
      Fixed(pos.headingDeg, 1, fmt),
      LevelValue(pos.Battery()),
      if pos.Battery().Some? then Some(Bool(pos.charging)) else None,
      TextValue(pos.driverUniqueId),
      TextValue(pos.cell),
      TextValue(pos.wifi),
      TextValue(pos.eventName),
      TextValue(pos.activityType),
      Fixed(pos.odometer, 1, fmt) ]
  }

  /** The slots of the query string and the form body. */
  function QuerySlots(pos: Position, ts: U64, fmt: Formatter, roundDown: bool): (s: seq<Slot>)
    ensures SlotKeys(s) == QueryOrder
  {
    Zip(QueryOrder, QueryValues(pos, ts, fmt, roundDown))
  }

  /** The `&key=value` fields both targets send. */
  function QueryFields(pos: Position, ts: U64, fmt: Formatter, roundDown: bool): seq<Field>
  {
    Present(QuerySlots(pos, ts, fmt, roundDown))
  }

  /** No key appears twice in `QueryOrder`. */
  lemma QueryOrderDistinct(vs: seq<Option<Value>>)
    requires |vs| == |QueryOrder|
    ensures DistinctKeys(Zip(QueryOrder, vs))
  {
    forall i, j | 0 <= i < j < |QueryOrder|
      ensures QueryOrder[i] != QueryOrder[j]
    {
      assert QueryRank(QueryOrder[i]) == i && QueryRank(QueryOrder[j]) == j;
    }
  }

  /** The place of each key in `QueryOrder`. */
  function QueryRank(k: Key): nat
  {
    match k
    case Lat => 0 case Lon => 1 case Altitude => 2 case Hdop => 3 case Speed => 4
    case Valid => 5 case Timestamp => 6 case Accuracy => 7 case Heading => 8
    case Batt => 9 case Charge => 10
    case DriverUniqueId => 11 case Cell => 12 case Wifi => 13 case Event => 14
    case Activity => 15 case Odometer => 16
  }

  /** The fields always come in the order of `QueryOrder`. */
  lemma QueryFieldOrder(pos: Position, ts: U64, fmt: Formatter, roundDown: bool)
    ensures IsSubsequence(Keys(QueryFields(pos, ts, fmt, roundDown)), QueryOrder)
  {
    PresentOrder(QuerySlots(pos, ts, fmt, roundDown));
  }

  /**
   * A field is sent exactly when its sentinel test passes: doubles when not
   * NaN, `valid` when the flag is not negative, `timestamp` when the resolved
   * time is not 0, `batt` and `charge` together when the battery level is
   * not negative, strings when neither null nor empty.
   */
  lemma QueryPresence(pos: Position, ts: U64, fmt: Formatter, roundDown: bool)
    ensures var ks := Keys(QueryFields(pos, ts, fmt, roundDown));
      && (Lat in ks <==> pos.latitude.Some?)
      && (Lon in ks <==> pos.longitude.Some?)
      && (Altitude in ks <==> pos.altitudeMeters.Some?)
      && (Hdop in ks <==> pos.hdop.Some?)
      && (Speed in ks <==> pos.speedKmh.Some?)
      && (Valid in ks <==> pos.validFlag >= 0)
      && (Timestamp in ks <==> ts != 0)
      && (Accuracy in ks <==> pos.accuracyMeters.Some?)
      && (Heading in ks <==> pos.headingDeg.Some?)
      && (Batt in ks <==> pos.batteryPercent >= 0)
      && (Charge in ks <==> pos.batteryPercent >= 0)
      && (DriverUniqueId in ks <==> Provided(pos.driverUniqueId))
      && (Cell in ks <==> Provided(pos.cell))
      && (Wifi in ks <==> Provided(pos.wifi))
      && (Event in ks <==> Provided(pos.eventName))
      && (Activity in ks <==> Provided(pos.activityType))
      && (Odometer in ks <==> pos.odometer.Some?)
  {
    var s := QuerySlots(pos, ts, fmt, roundDown);
    QueryOrderDistinct(QueryValues(pos, ts, fmt, roundDown));
    PresentKey(s, 0); PresentKey(s, 1); PresentKey(s, 2); PresentKey(s, 3);
    PresentKey(s, 4); PresentKey(s, 5); PresentKey(s, 6); PresentKey(s, 7);
    PresentKey(s, 8); PresentKey(s, 9); PresentKey(s, 10); PresentKey(s, 11);
    PresentKey(s, 12); PresentKey(s, 13); PresentKey(s, 14); PresentKey(s, 15);
    PresentKey(s, 16);
  }

  /** `valid` is `true` for any positive flag and `false` for 0; `charge` follows `charging`. */
  lemma QueryFlagValues(pos: Position, ts: U64, fmt: Formatter, roundDown: bool)
    ensures var fs := QueryFields(pos, ts, fmt, roundDown);
      && (Field(Valid, Bool(true)) in fs <==> pos.validFlag > 0)
      && (Field(Valid, Bool(false)) in fs <==> pos.validFlag == 0)
      && (Field(Charge, Bool(true)) in fs <==> pos.batteryPercent >= 0 && pos.charging)
      && (Field(Charge, Bool(false)) in fs <==> pos.batteryPercent >= 0 && !pos.charging)
  {
    var s := QuerySlots(pos, ts, fmt, roundDown);
    QueryOrderDistinct(QueryValues(pos, ts, fmt, roundDown));
    PresentField(s, 5, Bool(true));
    PresentField(s, 5, Bool(false));
    PresentField(s, 10, Bool(true));
    PresentField(s, 10, Bool(false));
  }

  /** `batt` is sent in decimal when the level is not negative. */
  lemma QueryBatteryValue(pos: Position, ts: U64, fmt: Formatter, roundDown: bool)
    requires pos.batteryPercent >= 0
    ensures Field(Batt, Number(Decimal(pos.batteryPercent as nat))) in QueryFields(pos, ts, fmt, roundDown)
  {
    QueryOrderDistinct(QueryValues(pos, ts, fmt, roundDown));
    PresentField(QuerySlots(pos, ts, fmt, roundDown), 9, Number(Decimal(pos.batteryPercent as nat)));
  }

  /** `timestamp` is sent in decimal milliseconds exactly when it is not 0. */
  lemma QueryTimestampValue(pos: Position, ts: U64, fmt: Formatter, roundDown: bool)
    ensures Field(Timestamp, Number(Decimal(ts))) in QueryFields(pos, ts, fmt, roundDown) <==> ts != 0
  {
    QueryOrderDistinct(QueryValues(pos, ts, fmt, roundDown));
    PresentField(QuerySlots(pos, ts, fmt, roundDown), 6, Number(Decimal(ts)));
  }

  /** Free text is sent unchanged (the renderer encodes it), and only when neither null nor empty. */
  lemma QueryTextValues(pos: Position, ts: U64, fmt: Formatter, roundDown: bool, t: Text)
    ensures var fs := QueryFields(pos, ts, fmt, roundDown);
      && (Field(DriverUniqueId, FreeText(t)) in fs <==> Provided(pos.driverUniqueId) && pos.driverUniqueId.value == t)
      && (Field(Cell, FreeText(t)) in fs <==> Provided(pos.cell) && pos.cell.value == t)
      && (Field(Wifi, FreeText(t)) in fs <==> Provided(pos.wifi) && pos.wifi.value == t)
      && (Field(Event, FreeText(t)) in fs <==> Provided(pos.eventName) && pos.eventName.value == t)
      && (Field(Activity, FreeText(t)) in fs <==> Provided(pos.activityType) && pos.activityType.value == t)
  {
    var s := QuerySlots(pos, ts, fmt, roundDown);
    QueryOrderDistinct(QueryValues(pos, ts, fmt, roundDown));
    PresentField(s, 11, FreeText(t));
    PresentField(s, 12, FreeText(t));
    PresentField(s, 13, FreeText(t));
    PresentField(s, 14, FreeText(t));
    PresentField(s, 15, FreeText(t));
  }

  /** The speed is sent in knots, rounded as configured. */
  lemma QuerySpeed(pos: Position, ts: U64, fmt: Formatter, roundDown: bool, kmh: real)
    requires pos.speedKmh == Some(kmh)
    ensures Field(Speed, Number(SignedDecimal(Knots(kmh, roundDown)))) in QueryFields(pos, ts, fmt, roundDown)
  {
    QueryOrderDistinct(QueryValues(pos, ts, fmt, roundDown));
    PresentField(QuerySlots(pos, ts, fmt, roundDown), 4, Number(SignedDecimal(Knots(kmh, roundDown))));
  }

  /**
   * Latitude and longitude are sent as the formatter prints them with 7
   * decimals, the altitude with 1 and the HDOP with 2, and only when not NaN.
   */
  lemma QueryPlaceValues(pos: Position, ts: U64, fmt: Formatter, roundDown: bool, t: Text)
    ensures var fs := QueryFields(pos, ts, fmt, roundDown);
      && (Field(Lat, Number(t)) in fs <==> pos.latitude.Some? && t == fmt(pos.latitude.value, 7))
      && (Field(Lon, Number(t)) in fs <==> pos.longitude.Some? && t == fmt(pos.longitude.value, 7))
      && (Field(Altitude, Number(t)) in fs <==> pos.altitudeMeters.Some? && t == fmt(pos.altitudeMeters.value, 1))
      && (Field(Hdop, Number(t)) in fs <==> pos.hdop.Some? && t == fmt(pos.hdop.value, 2))
  {
    var s := QuerySlots(pos, ts, fmt, roundDown);
    QueryOrderDistinct(QueryValues(pos, ts, fmt, roundDown));
    PresentField(s, 0, Number(t));
    PresentField(s, 1, Number(t));
    PresentField(s, 2, Number(t));
    PresentField(s, 3, Number(t));
  }

  /** Accuracy, heading and odometer are sent with 1 decimal, and only when not NaN. */
  lemma QueryMeasureValues(pos: Position, ts: U64, fmt: Formatter, roundDown: bool, t: Text)
    ensures var fs := QueryFields(pos, ts, fmt, roundDown);
      && (Field(Accuracy, Number(t)) in fs <==> pos.accuracyMeters.Some? && t == fmt(pos.accuracyMeters.value, 1))
      && (Field(Heading, Number(t)) in fs <==> pos.headingDeg.Some? && t == fmt(pos.headingDeg.value, 1))
      && (Field(Odometer, Number(t)) in fs <==> pos.odometer.Some? && t == fmt(pos.odometer.value, 1))
  {
    var s := QuerySlots(pos, ts, fmt, roundDown);
    QueryOrderDistinct(QueryValues(pos, ts, fmt, roundDown));
    PresentField(s, 7, Number(t));
    PresentField(s, 8, Number(t));
    PresentField(s, 16, Number(t));
  }

  /** A default position with no clock reading sends no field at all. */
  lemma DefaultSendsNothing(fmt: Formatter, roundDown: bool, now: I64)
    requires now <= 100000
    ensures QueryFields(Default, ResolveTimestamp(Default.timestampMs, now), fmt, roundDown) == []
  {
    var ts := ResolveTimestamp(Default.timestampMs, now);
    PresentNone(QuerySlots(Default, ts, fmt, roundDown));
  }

  /** `snprintf` into `char buf[48]` keeps at most 47 bytes. */
  function Printed(s: Text): (r: Text)
    ensures |r| <= 47 && r <= s
    ensures |s| <= 47 ==> r == s
    ensures |s| > 47 ==> |r| == 47
  {
    Prefix(s, 47)
  }

  /** One field as the builders append it: `&`, the key, `=`, the value. */
  function QueryChunk(f: Field): Text
  {
    match f.value
    case Number(d) => Printed("&" + Name(f.key) + "=" + d)
    case Bool(b) => "&" + Name(f.key) + "=" + BoolText(b)
    case FreeText(raw) => "&" + Name(f.key) + "=" + PercentEncode(raw)
  }

  function QueryPairs(fs: seq<Field>): Text
  {
    if fs == [] then [] else QueryChunk(fs[0]) + QueryPairs(fs[1..])
  }

  /** The untruncated form body: `id=` and the encoded device id (nothing for a null id), then the fields. */
  function FormBody(deviceId: Option<Text>, fs: seq<Field>): Text
  {
    "id=" + EncodedId(deviceId) + QueryPairs(fs)
  }

  /** The untruncated URL: the base URL as its 192-byte scratch buffer keeps it, `?`, then the form body. */
  function OsmAndUrl(s: Settings, fs: seq<Field>): Text
  {
    UrlAfter(BaseUrl(s), s.deviceId, fs)
  }

  /** The URL after a given base URL, in the order the builder appends its pieces. */
  function UrlAfter(base: Text, deviceId: Option<Text>, fs: seq<Field>): Text
  {
    UrlHead(base, deviceId) + QueryPairs(fs)
  }

  /** The base URL as its scratch buffer keeps it, `?`, `id=` and the encoded device id. */
  function UrlHead(base: Text, deviceId: Option<Text>): Text
  {
    Prefix(base, 191) + "?" + "id=" + EncodedId(deviceId)
  }

  /** The query string of the URL is exactly the form body. */
  lemma UrlQueryIsFormBody(s: Settings, fs: seq<Field>)
    ensures OsmAndUrl(s, fs) == Prefix(BaseUrl(s), 191) + "?" + FormBody(s.deviceId, fs)
  {
    var b := Prefix(BaseUrl(s), 191);
    var id := EncodedId(s.deviceId);
    var p := QueryPairs(fs);
    assert b + "?" + "id=" + id + p == b + "?" + ("id=" + id + p);
  }

  lemma {:induction false} QueryPairsAppend(a: seq<Field>, b: seq<Field>)
    ensures QueryPairs(a + b) == QueryPairs(a) + QueryPairs(b)
  {
    if a == [] {
      assert a + b == b;
    } else {
      assert (a + b)[0] == a[0] && (a + b)[1..] == a[1..] + b;
      QueryPairsAppend(a[1..], b);
    }
  }

  /**
   * A free-text value reaches the wire percent-encoded: it holds no `&`,
   * `=` or `?` that could end the pair early, and decoding gives the
   * original text back.
   */
  lemma FreeTextChunk(k: Key, raw: Text)
    ensures var c := QueryChunk(Field(k, FreeText(raw)));
      && c == "&" + Name(k) + "=" + c[|Name(k)| + 2..]
      && PercentDecode(c[|Name(k)| + 2..]) == Some(raw)
      && forall i :: |Name(k)| + 2 <= i < |c| ==> c[i] != '&' && c[i] != '=' && c[i] != '?'
  {
    FreeTextPair(Name(k), raw);
  }

  lemma FreeTextPair(n: Text, raw: Text)
    ensures var c := "&" + n + "=" + PercentEncode(raw);
      && c[|n| + 2..] == PercentEncode(raw)
      && PercentDecode(c[|n| + 2..]) == Some(raw)
      && forall i :: |n| + 2 <= i < |c| ==> c[i] != '&' && c[i] != '=' && c[i] != '?'
  {
    var e := PercentEncode(raw);
    var c := "&" + n + "=" + e;
    assert c[|n| + 2..] == e;
    DecodeEncode(raw);
    EncodedAlphabet(raw);
    forall i | |n| + 2 <= i < |c|
      ensures c[i] != '&' && c[i] != '=' && c[i] != '?'
    {
      var j := i - (|n| + 2);
      assert c[i] == e[j];
      NotDelimiter(e[j]);
    }
  }

  lemma NotDelimiter(x: Byte)
    requires IsUnreserved(x) || x == '%'
    ensures x != '&' && x != '=' && x != '?'
  {
  }

  /**
   * A base URL that fits its scratch buffer is followed by `?id=` and the
   * encoded device id; the fields come after that.
   */
  lemma UrlShape(s: Settings, fs: seq<Field>)
    requires |BaseUrl(s)| <= 191
    ensures var u := OsmAndUrl(s, fs); var b := BaseUrl(s);
      && u[..|b|] == b && b[|b| - 1] == '/'
      && u[|b|..|b| + 4] == "?id="
      && u[|b| + 4..] == (if s.deviceId.Some? then PercentEncode(s.deviceId.value) else []) + QueryPairs(fs)
  {
    var b := BaseUrl(s);
    var id := if s.deviceId.Some? then PercentEncode(s.deviceId.value) else [];
    assert Prefix(b, 191) == b;
    UrlQueryIsFormBody(s, fs);
    UrlLayout(b, id, QueryPairs(fs));
  }

  lemma UrlLayout(b: Text, id: Text, pairs: Text)
    ensures var u := b + "?" + ("id=" + id + pairs);
      u[..|b|] == b && u[|b|..|b| + 4] == "?id=" && u[|b| + 4..] == id + pairs
  {
    var u := b + "?" + ("id=" + id + pairs);
    assert u == b + ("?id=" + (id + pairs));
  }

  /** Appending one more slot's pairs extends the text of the slots before it. */
  lemma PairsStep(slots: seq<Slot>, k: nat)
    requires k < |slots|
    ensures QueryPairs(Present(slots[..k])) + QueryPairs(Opt(slots[k].key, slots[k].value))
         == QueryPairs(Present(slots[..k + 1]))
  {
    assert slots[..k + 1] == slots[..k] + [slots[k]];
    PresentSnoc(slots[..k], slots[k]);
    QueryPairsAppend(Present(slots[..k]), Opt(slots[k].key, slots[k].value));
  }

  lemma PairsStepAfter(x: Text, text: Text, slots: seq<Slot>, k: nat)
    requires k < |slots|
    requires x == text + QueryPairs(Present(slots[..k])) + QueryPairs(Opt(slots[k].key, slots[k].value))
    ensures x == text + QueryPairs(Present(slots[..k + 1]))
  {
    PairsStep(slots, k);
  }

  /** After the `if` of slot `k`, the buffer holds the pairs of the first `k + 1` slots. */
  lemma Advance(out: array<Byte>, idx: nat, text: Text, slots: seq<Slot>, k: nat)
    requires k < |slots|
    requires Holds(out, idx, text + QueryPairs(Present(slots[..k])) + QueryPairs(Opt(slots[k].key, slots[k].value)))
    ensures Holds(out, idx, text + QueryPairs(Present(slots[..k + 1])))
  {
    PairsStepAfter(text + QueryPairs(Present(slots[..k])) + QueryPairs(Opt(slots[k].key, slots[k].value)), text, slots, k);
  }

  /**
   * One field line of the builders: numbers go through `snprintf` into
   * `char buf[48]` and then `tr_append`, flags are appended as literals,
   * free text as `&key=` followed by `tr_append_urlenc`.
   */
  method AppendField(out: array<Byte>, idx: nat, ghost text: Text, f: Field) returns (next: nat)
    requires Holds(out, idx, text)
    modifies out
    ensures Holds(out, next, text + QueryChunk(f))
  {
    match f.value
    case Number(d) =>
      next := Emit(out, idx, text, Printed("&" + Name(f.key) + "=" + d));
    case Bool(b) =>
      next := Emit(out, idx, text, "&" + Name(f.key) + "=" + BoolText(b));
    case FreeText(raw) =>
      next := AppendTextField(out, idx, text, f.key, raw);
  }

  /** `tr_append(out, ..., "&key=")` followed by `tr_append_urlenc(out, ..., raw)`. */
  method AppendTextField(out: array<Byte>, idx: nat, ghost text: Text, k: Key, raw: Text) returns (next: nat)
    requires Holds(out, idx, text)
    modifies out
    ensures Holds(out, next, text + QueryChunk(Field(k, FreeText(raw))))
  {
    var head := "&" + Name(k) + "=";
    next := Emit(out, idx, text, head);
    next := AppendUrlEncoded(out, next, text + head, raw);
    Joined(text, head, PercentEncode(raw), QueryChunk(Field(k, FreeText(raw))));
  }

  lemma Joined(text: Text, head: Text, tail: Text, chunk: Text)
    requires chunk == head + tail
    ensures text + head + tail == text + chunk
  {
  }

  /**
   * One `if (...) { ...; tr_append(...); }` line of the builders: slot `k`
   * is appended when its value passed the sentinel test.
   */
  method AppendSlot(out: array<Byte>, idx: nat, ghost text: Text, ghost slots: seq<Slot>, ghost k: nat, s: Slot)
    returns (next: nat)
    requires k < |slots| && slots[k] == s
    requires Holds(out, idx, text + QueryPairs(Present(slots[..k])))
    modifies out
    ensures Holds(out, next, text + QueryPairs(Present(slots[..k + 1])))
  {
    next := idx;
    ghost var done := text + QueryPairs(Present(slots[..k]));
    if s.value.Some? {
      next := AppendField(out, idx, done, Field(s.key, s.value.value));
      assert QueryPairs(Opt(s.key, s.value)) == QueryChunk(Field(s.key, s.value.value)) by {
        assert Opt(s.key, s.value) == [Field(s.key, s.value.value)];
      }
    } else {
      assert done + QueryPairs(Opt(s.key, s.value)) == done;
    }
    Advance(out, next, text, slots, k);
  }

  /** Slot by slot, what the lines of the builders test and send. */
  lemma PositionSlotsAt(pos: Position, ts: U64, fmt: Formatter, roundDown: bool)
    ensures var S := QuerySlots(pos, ts, fmt, roundDown);
      && |S| == 17
      && S[0] == Slot(Lat, Fixed(pos.latitude, 7, fmt))
      && S[1] == Slot(Lon, Fixed(pos.longitude, 7, fmt))
      && S[2] == Slot(Altitude, Fixed(pos.altitudeMeters, 1, fmt))
      && S[3] == Slot(Hdop, Fixed(pos.hdop, 2, fmt))
      && S[4] == Slot(Speed, KnotsValue(pos.speedKmh, roundDown))
  {
    var vs := QueryValues(pos, ts, fmt, roundDown);
    assert vs[0] == Fixed(pos.latitude, 7, fmt);
    assert vs[1] == Fixed(pos.longitude, 7, fmt);
    assert vs[2] == Fixed(pos.altitudeMeters, 1, fmt);
    assert vs[3] == Fixed(pos.hdop, 2, fmt);
    assert vs[4] == KnotsValue(pos.speedKmh, roundDown);
  }

  lemma StatusSlotsAt(pos: Position, ts: U64, fmt: Formatter, roundDown: bool)
    ensures var S := QuerySlots(pos, ts, fmt, roundDown);
      && |S| == 17
      && S[5] == Slot(Valid, FlagValue(pos.Valid()))
      && S[6] == Slot(Timestamp, if ts != 0 then Some(Number(Decimal(ts))) else None)
      && S[7] == Slot(Accuracy, Fixed(pos.accuracyMeters, 1, fmt))
      && S[8] == Slot(Heading, Fixed(pos.headingDeg, 1, fmt))
  {
    var vs := QueryValues(pos, ts, fmt, roundDown);
    assert vs[5] == FlagValue(pos.Valid());
    assert vs[6] == if ts != 0 then Some(Number(Decimal(ts))) else None;
    assert vs[7] == Fixed(pos.accuracyMeters, 1, fmt);
    assert vs[8] == Fixed(pos.headingDeg, 1, fmt);
  }

  lemma OtherSlotsAt(pos: Position, ts: U64, fmt: Formatter, roundDown: bool)
    ensures var S := QuerySlots(pos, ts, fmt, roundDown);
      && |S| == 17
      && S[9] == Slot(Batt, LevelValue(pos.Battery()))
      && S[10] == Slot(Charge, if pos.Battery().Some? then Some(Bool(pos.charging)) else None)
      && S[11] == Slot(DriverUniqueId, TextValue(pos.driverUniqueId))
      && S[12] == Slot(Cell, TextValue(pos.cell))
      && S[13] == Slot(Wifi, TextValue(pos.wifi))
      && S[14] == Slot(Event, TextValue(pos.eventName))
      && S[15] == Slot(Activity, TextValue(pos.activityType))
      && S[16] == Slot(Odometer, Fixed(pos.odometer, 1, fmt))
  {
    var vs := QueryValues(pos, ts, fmt, roundDown);
    assert vs[9] == LevelValue(pos.Battery());
    assert vs[10] == if pos.Battery().Some? then Some(Bool(pos.charging)) else None;
    assert vs[11] == TextValue(pos.driverUniqueId);
    assert vs[12] == TextValue(pos.cell);
    assert vs[13] == TextValue(pos.wifi);
    assert vs[14] == TextValue(pos.eventName);
    assert vs[15] == TextValue(pos.activityType);
    assert vs[16] == Fixed(pos.odometer, 1, fmt);
  }

  /** The lines for latitude, longitude, altitude, HDOP and speed. */
  method AppendPositionFields(out: array<Byte>, idx: nat, ghost text: Text, ghost S: seq<Slot>, pos: Position, fmt: Formatter, roundDown: bool)
    returns (next: nat)
    requires |S| == 17
    requires S[0] == Slot(Lat, Fixed(pos.latitude, 7, fmt)) && S[1] == Slot(Lon, Fixed(pos.longitude, 7, fmt))
    requires S[2] == Slot(Altitude, Fixed(pos.altitudeMeters, 1, fmt)) && S[3] == Slot(Hdop, Fixed(pos.hdop, 2, fmt))
    requires S[4] == Slot(Speed, KnotsValue(pos.speedKmh, roundDown))
    requires Holds(out, idx, text + QueryPairs(Present(S[..0])))
    modifies out
    ensures Holds(out, next, text + QueryPairs(Present(S[..5])))
  {
    next := AppendSlot(out, idx, text, S, 0, Slot(Lat, Fixed(pos.latitude, 7, fmt)));
    next := AppendSlot(out, next, text, S, 1, Slot(Lon, Fixed(pos.longitude, 7, fmt)));
    next := AppendSlot(out, next, text, S, 2, Slot(Altitude, Fixed(pos.altitudeMeters, 1, fmt)));
    next := AppendSlot(out, next, text, S, 3, Slot(Hdop, Fixed(pos.hdop, 2, fmt)));
    next := AppendSlot(out, next, text, S, 4, Slot(Speed, KnotsValue(pos.speedKmh, roundDown)));
  }

  /** The lines for validity, time, accuracy and heading; `ts` is the resolved timestamp. */
  method AppendStatusFields(out: array<Byte>, idx: nat, ghost text: Text, ghost S: seq<Slot>, pos: Position, ts: U64, fmt: Formatter)
    returns (next: nat)
    requires |S| == 17
    requires S[5] == Slot(Valid, FlagValue(pos.Valid()))
    requires S[6] == Slot(Timestamp, if ts != 0 then Some(Number(Decimal(ts))) else None)
    requires S[7] == Slot(Accuracy, Fixed(pos.accuracyMeters, 1, fmt)) && S[8] == Slot(Heading, Fixed(pos.headingDeg, 1, fmt))
    requires Holds(out, idx, text + QueryPairs(Present(S[..5])))
    modifies out
    ensures Holds(out, next, text + QueryPairs(Present(S[..9])))
  {
    var valid := FlagValue(pos.Valid());
    next := AppendSlot(out, idx, text, S, 5, Slot(Valid, valid));
    var time := if ts != 0 then Some(Number(Decimal(ts))) else None;
    next := AppendSlot(out, next, text, S, 6, Slot(Timestamp, time));
    next := AppendSlot(out, next, text, S, 7, Slot(Accuracy, Fixed(pos.accuracyMeters, 1, fmt)));
    next := AppendSlot(out, next, text, S, 8, Slot(Heading, Fixed(pos.headingDeg, 1, fmt)));
  }

  /** The battery line: `batt`, then `charge`, both under `batteryPercent >= 0`. */
  method AppendBatteryFields(out: array<Byte>, idx: nat, ghost text: Text, ghost S: seq<Slot>, pos: Position)
    returns (next: nat)
    requires |S| == 17
    requires S[9] == Slot(Batt, LevelValue(pos.Battery()))
    requires S[10] == Slot(Charge, if pos.Battery().Some? then Some(Bool(pos.charging)) else None)
    requires Holds(out, idx, text + QueryPairs(Present(S[..9])))
    modifies out
    ensures Holds(out, next, text + QueryPairs(Present(S[..11])))
  {
    var batt := LevelValue(pos.Battery());
    next := AppendSlot(out, idx, text, S, 9, Slot(Batt, batt));
    var charge := if pos.Battery().Some? then Some(Bool(pos.charging)) else None;
    next := AppendSlot(out, next, text, S, 10, Slot(Charge, charge));
  }

  /** The lines for the driver and the radio environment. */
  method AppendRadioFields(out: array<Byte>, idx: nat, ghost text: Text, ghost S: seq<Slot>, pos: Position)
    returns (next: nat)
    requires |S| == 17
    requires S[11] == Slot(DriverUniqueId, TextValue(pos.driverUniqueId)) && S[12] == Slot(Cell, TextValue(pos.cell))
    requires S[13] == Slot(Wifi, TextValue(pos.wifi))
    requires Holds(out, idx, text + QueryPairs(Present(S[..11])))
    modifies out
    ensures Holds(out, next, text + QueryPairs(Present(S[..14])))
  {
    next := AppendSlot(out, idx, text, S, 11, Slot(DriverUniqueId, TextValue(pos.driverUniqueId)));
    next := AppendSlot(out, next, text, S, 12, Slot(Cell, TextValue(pos.cell)));
    next := AppendSlot(out, next, text, S, 13, Slot(Wifi, TextValue(pos.wifi)));
  }

  /** The lines for the event, the activity and the odometer, the last of all. */
  method AppendEventFields(out: array<Byte>, idx: nat, ghost text: Text, ghost S: seq<Slot>, pos: Position, fmt: Formatter)
    returns (next: nat)
    requires |S| == 17
    requires S[14] == Slot(Event, TextValue(pos.eventName))
    requires S[15] == Slot(Activity, TextValue(pos.activityType)) && S[16] == Slot(Odometer, Fixed(pos.odometer, 1, fmt))
    requires Holds(out, idx, text + QueryPairs(Present(S[..14])))
    modifies out
    ensures Holds(out, next, text + QueryPairs(Present(S)))
  {
    next := AppendSlot(out, idx, text, S, 14, Slot(Event, TextValue(pos.eventName)));
    next := AppendSlot(out, next, text, S, 15, Slot(Activity, TextValue(pos.activityType)));
    next := AppendSlot(out, next, text, S, 16, Slot(Odometer, Fixed(pos.odometer, 1, fmt)));
    assert S[..17] == S;
  }

  /** Every field line of the two builders, in order. */
  method AppendQueryFields(out: array<Byte>, idx: nat, ghost text: Text, pos: Position, ts: U64, fmt: Formatter, roundDown: bool)
    returns (next: nat)
    requires Holds(out, idx, text)
    modifies out
    ensures Holds(out, next, text + QueryPairs(QueryFields(pos, ts, fmt, roundDown)))
  {
    ghost var S := QuerySlots(pos, ts, fmt, roundDown);
    assert text + QueryPairs(Present(S[..0])) == text by {
      assert S[..0] == [];
    }
    next := AppendFirstFields(out, idx, text, pos, ts, fmt, roundDown);
    next := AppendLastFields(out, next, text, pos, ts, fmt, roundDown);
  }

  /** The lines from `lat` to `heading`. */
  method AppendFirstFields(out: array<Byte>, idx: nat, ghost text: Text, pos: Position, ts: U64, fmt: Formatter, roundDown: bool)
    returns (next: nat)
    requires Holds(out, idx, text + QueryPairs(Present(QuerySlots(pos, ts, fmt, roundDown)[..0])))
    modifies out
    ensures Holds(out, next, text + QueryPairs(Present(QuerySlots(pos, ts, fmt, roundDown)[..9])))
  {
    ghost var S := QuerySlots(pos, ts, fmt, roundDown);
    PositionSlotsAt(pos, ts, fmt, roundDown);
    StatusSlotsAt(pos, ts, fmt, roundDown);
    next := AppendPositionFields(out, idx, text, S, pos, fmt, roundDown);
    next := AppendStatusFields(out, next, text, S, pos, ts, fmt);
  }

  /** The lines from `batt` to `odometer`. */
  method AppendLastFields(out: array<Byte>, idx: nat, ghost text: Text, pos: Position, ts: U64, fmt: Formatter, roundDown: bool)
    returns (next: nat)
    requires Holds(out, idx, text + QueryPairs(Present(QuerySlots(pos, ts, fmt, roundDown)[..9])))
    modifies out
    ensures Holds(out, next, text + QueryPairs(Present(QuerySlots(pos, ts, fmt, roundDown))))
  {
    ghost var S := QuerySlots(pos, ts, fmt, roundDown);
    OtherSlotsAt(pos, ts, fmt, roundDown);
    next := AppendBatteryFields(out, idx, text, S, pos);
    next := AppendRadioFields(out, next, text, S, pos);
    next := AppendEventFields(out, next, text, S, pos, fmt);
  }

  /** The device id as both builders encode it: nothing for a null id. */
  function EncodedId(deviceId: Option<Text>): Text
  {
    if deviceId.Some? then PercentEncode(deviceId.value) else []
  }

  lemma FormHolds(out: array<Byte>, n: nat, deviceId: Option<Text>, fs: seq<Field>)
    requires Holds(out, n, "id=" + EncodedId(deviceId) + QueryPairs(fs))
    ensures Holds(out, n, FormBody(deviceId, fs)) && out[..n] == Prefix(FormBody(deviceId, fs), out.Length - 1)
  {
    HoldsPrefix(out, n, FormBody(deviceId, fs));
  }

  lemma UrlHolds(out: array<Byte>, n: nat, base: Text, deviceId: Option<Text>, fs: seq<Field>)
    requires Holds(out, n, UrlHead(base, deviceId) + QueryPairs(fs))
    ensures Holds(out, n, UrlAfter(base, deviceId, fs)) && out[..n] == Prefix(UrlAfter(base, deviceId, fs), out.Length - 1)
  {
    HoldsPrefix(out, n, UrlAfter(base, deviceId, fs));
  }

  /** `id=` and the encoded device id, the start of the form body. */
  method AppendFormHead(c: Client, out: array<Byte>) returns (n: nat)
    requires 0 < out.Length
    modifies out
    ensures Holds(out, n, "id=" + EncodedId(c.deviceId))
  {
    n := 0;
    out[0] := NUL;
    n := Emit(out, n, [], "id=");
    assert [] + "id=" == "id=";
    if c.deviceId.Some? {
      n := AppendUrlEncoded(out, n, "id=", c.deviceId.value);
    } else {
      assert "id=" + EncodedId(c.deviceId) == "id=";
    }
  }

  /**
   * `traccar_build_osmand_form_body`. A null client, position or buffer, or
   * a buffer of size 0, gives 0 and leaves the buffer alone; otherwise the
   * buffer holds, NUL-terminated, as much of the form body as fits, and the
   * returned cursor is its length.
   */
  method BuildFormBody(c: Client?, pos: Option<Position>, now: I64, fmt: Formatter, roundDown: bool, out: array?<Byte>)
    returns (n: nat)
    modifies out
    ensures c == null || pos.None? || out == null || out.Length == 0 ==>
      n == 0 && (out != null ==> out[..] == old(out[..]))
    ensures c != null && pos.Some? && out != null && out.Length > 0 ==>
      var body := FormBody(c.deviceId, QueryFields(pos.value, ResolveTimestamp(pos.value.timestampMs, now), fmt, roundDown));
      Holds(out, n, body) && out[..n] == Prefix(body, out.Length - 1)
  {
    if c == null || pos.None? || out == null || out.Length == 0 {
      return 0;
    }
    n := AppendFormHead(c, out);
    var ts := ResolveTimestamp(pos.value.timestampMs, now);
    n := AppendQueryFields(out, n, "id=" + EncodedId(c.deviceId), pos.value, ts, fmt, roundDown);
    FormHolds(out, n, c.deviceId, QueryFields(pos.value, ts, fmt, roundDown));
  }

  /**
   * The head of `traccar_build_osmand_url`: the base URL is built into a
   * 192-byte scratch buffer and copied up to its NUL, then `?`, `id=` and
   * the encoded device id follow (an empty string for a null id).
   */
  method AppendUrlHead(c: Client, out: array<Byte>) returns (n: nat)
    requires CStrings(c.Snapshot()) && 0 < out.Length
    modifies out
    ensures Holds(out, n, UrlHead(BaseUrl(c.Snapshot()), c.deviceId))
  {
    n := AppendBase(c, out);
    ghost var text := Prefix(BaseUrl(c.Snapshot()), 191);
    n := Emit(out, n, text, "?");
    text := text + "?";
    n := Emit(out, n, text, "id=");
    text := text + "id=";
    if c.deviceId.Some? {
      n := AppendUrlEncoded(out, n, text, c.deviceId.value);
    } else {
      n := Emit(out, n, text, "");
      assert text + "" == text + EncodedId(c.deviceId);
    }
  }

  /**
   * The base URL built into `char base[192]` and copied to the start of
   * `out` up to its NUL: at most 191 bytes of it.
   */
  method AppendBase(c: Client, out: array<Byte>) returns (n: nat)
    requires CStrings(c.Snapshot()) && 0 < out.Length
    modifies out
    ensures Holds(out, n, Prefix(BaseUrl(c.Snapshot()), 191))
  {
    out[0] := NUL;
    var base := new Byte[192];
    BuildBaseUrl(c, base);
    ghost var url := BaseUrl(c.Snapshot());
    BaseUrlCString(c.Snapshot());
    HoldsCString(base, Min(|url|, 191), url);
    var len := CStringLength(base);
    HoldsPrefix(base, len, url);
    n := Emit(out, 0, [], base[..len]);
    assert [] + base[..len] == Prefix(url, 191);
  }

  /**
   * `traccar_build_osmand_url`. A null client, position or buffer, or a
   * buffer of size 0, gives 0 and leaves the buffer alone; otherwise the
   * buffer holds, NUL-terminated, as much of the URL as fits, and the
   * returned cursor is its length.
   */
  method BuildOsmAndUrl(c: Client?, pos: Option<Position>, now: I64, fmt: Formatter, roundDown: bool, out: array?<Byte>)
    returns (n: nat)
    requires c != null ==> CStrings(c.Snapshot())
    modifies out
    ensures c == null || pos.None? || out == null || out.Length == 0 ==>
      n == 0 && (out != null ==> out[..] == old(out[..]))
    ensures c != null && pos.Some? && out != null && out.Length > 0 ==>
      var url := OsmAndUrl(c.Snapshot(), QueryFields(pos.value, ResolveTimestamp(pos.value.timestampMs, now), fmt, roundDown));
      Holds(out, n, url) && out[..n] == Prefix(url, out.Length - 1)
  {
    if c == null || pos.None? || out == null || out.Length == 0 {
      return 0;
    }
    n := AppendUrlHead(c, out);
    var ts := ResolveTimestamp(pos.value.timestampMs, now);
    n := AppendQueryFields(out, n, UrlHead(BaseUrl(c.Snapshot()), c.deviceId), pos.value, ts, fmt, roundDown);
    UrlHolds(out, n, BaseUrl(c.Snapshot()), c.deviceId, QueryFields(pos.value, ts, fmt, roundDown));
  }
}
