/**
 * The fields of a position report as the three encoders emit them: a key of
 * the OsmAnd protocol and a value that is a number already printed, a
 * boolean, or free text. Each encoder picks its fields in its own fixed
 * order and renders them in its own syntax.
 */
module Fields {
  import opened Wrappers
  import opened Bytes

  /** The protocol keys the encoders use. */
  datatype Key =
    | Lat | Lon | Altitude | Hdop | Speed | Valid | Timestamp | Accuracy | Heading
    | Batt | Charge | DriverUniqueId | Cell | Wifi | Event | Activity | Odometer

  /** The key as it appears on the wire. */
  function Name(k: Key): Text
  {
    match k
    case Lat => "lat"
    case Lon => "lon"
    case Altitude => "altitude"
    case Hdop => "hdop"
    case Speed => "speed"
    case Valid => "valid"
    case Timestamp => "timestamp"
    case Accuracy => "accuracy"
    case Heading => "heading"
    case Batt => "batt"
    case Charge => "charge"
    case DriverUniqueId => "driverUniqueId"
    case Cell => "cell"
    case Wifi => "wifi"
    case Event => "event"
    case Activity => "activity"
    case Odometer => "odometer"
  }

  datatype Value =
    | Number(digits: Text)   // the text `snprintf` or `String(...)` printed
    | Bool(flag: bool)       // the literal `true` or `false`
    | FreeText(raw: Text)    // a caller-supplied string, escaped (or not) by the renderer

  datatype Field = Field(key: Key, value: Value)

  function BoolText(b: bool): Text { if b then "true" else "false" }

  /** The keys of `fs`, in order. */
  function Keys(fs: seq<Field>): (ks: seq<Key>)
    ensures |ks| == |fs|
    ensures forall i :: 0 <= i < |fs| ==> ks[i] == fs[i].key
  {
    seq(|fs|, i requires 0 <= i < |fs| => fs[i].key)
  }

  lemma KeysAppend(a: seq<Field>, b: seq<Field>)
    ensures Keys(a + b) == Keys(a) + Keys(b)
  {
  }

  /** `a` is `b` with some elements left out and the rest kept in order. */
  predicate IsSubsequence(a: seq<Key>, b: seq<Key>)
    decreases |b|
  {
    || a == []
    || (b != [] && ((a[0] == b[0] && IsSubsequence(a[1..], b[1..])) || IsSubsequence(a, b[1..])))
  }

  /** The field `k` when its value is present, nothing otherwise. */
  function Opt(k: Key, v: Option<Value>): (r: seq<Field>)
    ensures Keys(r) == if v.Some? then [k] else []
  {
    match v
    case None => []
    case Some(x) => [Field(k, x)]
  }

  /** An optional field keeps its place in the order. */
  lemma OptOrder(k: Key, v: Option<Value>)
    ensures IsSubsequence(Keys(Opt(k, v)), [k])
  {
    if v.Some? {
      assert Keys(Opt(k, v))[1..] == [] && [k][1..] == [];
    }
  }

  /** A field an encoder may send: its key, and its value when the sentinel test lets it through. */
  datatype Slot = Slot(key: Key, value: Option<Value>)

  /** The fields of the slots whose values are present, in slot order. */
  function Present(slots: seq<Slot>): (fs: seq<Field>)
    ensures |fs| <= |slots|
  {
    if slots == [] then []
    else Present(slots[..|slots| - 1]) + Opt(slots[|slots| - 1].key, slots[|slots| - 1].value)
  }

  function SlotKeys(slots: seq<Slot>): (ks: seq<Key>)
    ensures |ks| == |slots|
    ensures forall i :: 0 <= i < |slots| ==> ks[i] == slots[i].key
  {
    seq(|slots|, i requires 0 <= i < |slots| => slots[i].key)
  }

  /** Keys paired with their values, position by position. */
  function Zip(ks: seq<Key>, vs: seq<Option<Value>>): (s: seq<Slot>)
    requires |ks| == |vs|
    ensures |s| == |ks| && SlotKeys(s) == ks
    ensures forall i :: 0 <= i < |ks| ==> s[i] == Slot(ks[i], vs[i])
  {
    seq(|ks|, i requires 0 <= i < |ks| => Slot(ks[i], vs[i]))
  }

  /** No key is used by two slots. */
  predicate DistinctKeys(slots: seq<Slot>)
  {
    forall i, j :: 0 <= i < j < |slots| ==> slots[i].key != slots[j].key
  }

  /** Subsequences of consecutive pieces make a subsequence of the whole. */
  lemma {:induction false} SubsequenceConcat(a: seq<Key>, b: seq<Key>, c: seq<Key>, d: seq<Key>)
    requires IsSubsequence(a, b) && IsSubsequence(c, d)
    ensures IsSubsequence(a + c, b + d)
    decreases |b|
  {
    if b == [] {
      assert a == [] && a + c == c && b + d == d;
    } else if a == [] {
      SubsequenceConcat(a, b[1..], c, d);
      assert a + c == c && (b + d)[1..] == b[1..] + d;
    } else if a[0] == b[0] && IsSubsequence(a[1..], b[1..]) {
      SubsequenceConcat(a[1..], b[1..], c, d);
      assert (a + c)[0] == a[0] && (a + c)[1..] == a[1..] + c && (b + d)[1..] == b[1..] + d;
    } else {
      SubsequenceConcat(a, b[1..], c, d);
      assert (b + d)[1..] == b[1..] + d;
    }
  }

  lemma PresentSnoc(slots: seq<Slot>, s: Slot)
    ensures Present(slots + [s]) == Present(slots) + Opt(s.key, s.value)
  {
    assert (slots + [s])[..|slots|] == slots;
  }

  lemma {:induction false} PresentAppend(a: seq<Slot>, b: seq<Slot>)
    ensures Present(a + b) == Present(a) + Present(b)
    decreases |b|
  {
    if b == [] {
      assert a + b == a;
    } else {
      var init, last := b[..|b| - 1], b[|b| - 1];
      assert b == init + [last];
      assert a + b == (a + init) + [last];
      calc {
        Present(a + b);
        Present((a + init) + [last]);
        { PresentSnoc(a + init, last); }
        Present(a + init) + Opt(last.key, last.value);
        { PresentAppend(a, init); }
        Present(a) + Present(init) + Opt(last.key, last.value);
        { PresentSnoc(init, last); }
        Present(a) + Present(init + [last]);
      }
    }
  }

  /** The fields keep the slot order: their keys are a subsequence of the slot keys. */
  lemma {:induction false} PresentOrder(slots: seq<Slot>)
    ensures IsSubsequence(Keys(Present(slots)), SlotKeys(slots))
  {
    if slots != [] {
      var init, last := slots[..|slots| - 1], slots[|slots| - 1];
      PresentOrder(init);
      OptOrder(last.key, last.value);
      SubsequenceConcat(Keys(Present(init)), SlotKeys(init), Keys(Opt(last.key, last.value)), [last.key]);
      KeysAppend(Present(init), Opt(last.key, last.value));
      assert SlotKeys(init) + [last.key] == SlotKeys(slots);
    }
  }

  /** Every field comes from a slot with that key and that value. */
  lemma {:induction false} PresentFrom(slots: seq<Slot>, f: Field)
    requires f in Present(slots)
    ensures exists j :: 0 <= j < |slots| && slots[j] == Slot(f.key, Some(f.value))
  {
    var init, last := slots[..|slots| - 1], slots[|slots| - 1];
    if f in Present(init) {
      PresentFrom(init, f);
      var j :| 0 <= j < |init| && init[j] == Slot(f.key, Some(f.value));
      assert slots[j] == init[j];
    } else {
      assert slots[|slots| - 1] == Slot(f.key, Some(f.value));
    }
  }

  /** With distinct keys, the field of slot `i` is sent with value `v` exactly when the slot holds `v`. */
  lemma {:induction false} PresentField(slots: seq<Slot>, i: nat, v: Value)
    requires DistinctKeys(slots) && i < |slots|
    ensures Field(slots[i].key, v) in Present(slots) <==> slots[i].value == Some(v)
  {
    var init, last := slots[..|slots| - 1], slots[|slots| - 1];
    var f := Field(slots[i].key, v);
    assert Present(slots) == Present(init) + Opt(last.key, last.value);
    if i < |init| {
      assert init[i] == slots[i];
      PresentField(init, i, v);
      assert f !in Opt(last.key, last.value) by {
        assert last.key != slots[i].key;
      }
    } else if f in Present(init) {
      PresentFrom(init, f);  // a second slot with the key of slot i
      assert false;
    }
  }

  /** With distinct keys, the key of slot `i` is sent exactly when the slot holds a value. */
  lemma PresentKey(slots: seq<Slot>, i: nat)
    requires DistinctKeys(slots) && i < |slots|
    ensures slots[i].key in Keys(Present(slots)) <==> slots[i].value.Some?
  {
    var fs := Present(slots);
    if slots[i].value.Some? {
      PresentField(slots, i, slots[i].value.value);
      var p :| 0 <= p < |fs| && fs[p] == Field(slots[i].key, slots[i].value.value);
      assert Keys(fs)[p] == slots[i].key;
    }
    if slots[i].key in Keys(fs) {
      var p :| 0 <= p < |fs| && Keys(fs)[p] == slots[i].key;
      PresentField(slots, i, fs[p].value);
    }
  }

  /** Slots without values send nothing. */
  lemma {:induction false} PresentNone(slots: seq<Slot>)
    requires forall i :: 0 <= i < |slots| ==> slots[i].value.None?
    ensures Present(slots) == []
  {
    if slots != [] {
      PresentNone(slots[..|slots| - 1]);
    }
  }

  /** When only the last two slots hold values, the fields are those two. */
  lemma PresentLastTwo(slots: seq<Slot>)
    requires |slots| >= 2
    requires forall j :: 0 <= j < |slots| - 2 ==> slots[j].value.None?
    ensures var n := |slots|;
      Present(slots) == Opt(slots[n - 2].key, slots[n - 2].value) + Opt(slots[n - 1].key, slots[n - 1].value)
  {
    var n := |slots|;
    var init := slots[..n - 1];
    assert init[..n - 2] == slots[..n - 2];
    PresentNone(slots[..n - 2]);
    assert Present(init) == Opt(slots[n - 2].key, slots[n - 2].value);
  }

  /** The fields of a run of slots are those of its two parts, one after the other. */
  lemma PresentSplit(slots: seq<Slot>, k: nat)
    requires k <= |slots|
    ensures Present(slots) == Present(slots[..k]) + Present(slots[k..])
  {
    assert slots == slots[..k] + slots[k..];
    PresentAppend(slots[..k], slots[k..]);
  }

  /** When only two neighbouring slots hold values, the fields are those two. */
  lemma PresentPair(slots: seq<Slot>, i: nat)
    requires i + 1 < |slots|
    requires forall j :: 0 <= j < |slots| && j != i && j != i + 1 ==> slots[j].value.None?
    ensures Present(slots) == Opt(slots[i].key, slots[i].value) + Opt(slots[i + 1].key, slots[i + 1].value)
  {
    PresentNone(slots[i + 2..]);
    PresentLastTwo(slots[..i + 2]);
    PresentSplit(slots, i + 2);
  }
}
