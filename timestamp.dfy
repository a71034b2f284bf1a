/**
 * Timestamps: the clock fallback of `tr_now_ms_or_0` and the ISO-8601 /
 * RFC 3339 (section 5.6) text `YYYY-MM-DDTHH:MM:SS.mmmZ` of
 * `tr_format_iso8601`. The wall clock (`time()`) is the parameter `now`
 * and the calendar conversion (`gmtime_r`) the parameter `gmtime`.
 */
module Timestamps {
  import opened Wrappers
  import opened Bytes
  import opened Buffer
  import opened Positions

  const U64Modulus: int := 0x1_0000_0000_0000_0000

  /** `time_t`, a signed 64-bit count of seconds. */
  type I64 = i: int | -0x8000_0000_0000_0000 <= i < 0x8000_0000_0000_0000

  /**
   * `tr_now_ms_or_0`: a clock reading above 100000 seconds counts as set and
   * is scaled to milliseconds with `uint64_t` arithmetic; anything else is 0.
   */
  function NowMsOr0(now: I64): (ms: U64)
    ensures now <= 100000 ==> ms == 0
    ensures 100000 < now < 0x10_0000_0000_0000 ==> ms == now * 1000 && ms != 0
  {
    if now > 100000 then
      assert now < 0x10_0000_0000_0000 ==> now * 1000 < U64Modulus;
      (now * 1000) % U64Modulus
    else 0
  }

  /** The timestamp every encoder sends: the position's own, else the clock's. */
  function ResolveTimestamp(timestampMs: U64, now: I64): (ts: U64)
    ensures timestampMs != 0 ==> ts == timestampMs
    ensures timestampMs == 0 ==> ts == NowMsOr0(now)
    ensures timestampMs == 0 && now <= 100000 ==> ts == 0
    ensures timestampMs == 0 && 100000 < now < 0x10_0000_0000_0000 ==> ts == now * 1000
  {
    if timestampMs != 0 then timestampMs else NowMsOr0(now)
  }

  /** The fields of `struct tm` the format uses: years since 1900, months from 0. */
  datatype Tm = Tm(year: int, mon: int, mday: int, hour: int, min: int, sec: int)

  /** A broken-down time whose printed fields have their usual widths. */
  predicate InRange(t: Tm)
  {
    && 0 <= t.year + 1900 <= 9999 && 0 <= t.mon <= 11 && 1 <= t.mday <= 31
    && 0 <= t.hour <= 23 && 0 <= t.min <= 59 && 0 <= t.sec <= 60
  }

  /** `snprintf` into `char buf[32]`: at most 31 bytes survive. */
  function IsoText(t: Tm, ms: nat): Text
  {
    Prefix(IsoFull(t, ms), 31)
  }

  /** The `%04d-%02d-%02dT%02d:%02d:%02d.%03dZ` text before truncation. */
  function IsoFull(t: Tm, ms: nat): Text
  {
    IsoJoin(PaddedInt(t.year + 1900, 4), PaddedInt(t.mon + 1, 2), PaddedInt(t.mday, 2),
      PaddedInt(t.hour, 2), PaddedInt(t.min, 2), PaddedInt(t.sec, 2), PaddedInt(ms, 3))
  }

  /** The printed fields with the separators of the format between them. */
  function IsoJoin(y: Text, mo: Text, d: Text, h: Text, mi: Text, s: Text, m: Text): Text
  {
    y + "-" + mo + "-" + d + "T" + h + ":" + mi + ":" + s + "." + m + "Z"
  }

  /** `tr_format_iso8601`: empty for 0, else the calendar time of `epochMs / 1000` with the milliseconds `epochMs % 1000`. */
  function FormatIso8601(epochMs: U64, gmtime: I64 -> Tm): Text
  {
    if epochMs == 0 then [] else IsoText(gmtime(epochMs / 1000), epochMs % 1000)
  }

  /** The text is empty exactly for the "unset" timestamp 0. */
  lemma IsoEmptyIffZero(epochMs: U64, gmtime: I64 -> Tm)
    ensures FormatIso8601(epochMs, gmtime) == [] <==> epochMs == 0
  {
    if epochMs != 0 {
      var t := gmtime(epochMs / 1000);
      assert |PaddedInt(t.year + 1900, 4)| >= 1 by {
        var y := t.year + 1900;
        if y < 0 { } else { DecimalRoundTrip(y); }
      }
    }
  }

  /** The seconds handed to the calendar and the printed milliseconds recompose the timestamp. */
  lemma SecondsMillisSplit(epochMs: U64)
    ensures epochMs / 1000 * 1000 + epochMs % 1000 == epochMs && epochMs % 1000 < 1000
    ensures epochMs / 1000 < 0x8000_0000_0000_0000
  {
  }

  /** `%0Nd` of a value below `10^width` is `width` bytes that read back as the value. */
  lemma PaddedExact(n: int, width: nat)
    requires 0 <= n < Pow10(width) && width >= 1
    ensures |PaddedInt(n, width)| == width && ReadNumber(PaddedInt(n, width)) == Some(n)
  {
    ZeroPaddedExact(n, width);
    ReadNumberDigits(PaddedInt(n, width));
  }

  /** Where each piece of a `YYYY-MM-DDTHH:MM:SS.mmmZ` text sits. */
  lemma IsoLayout(y: Text, mo: Text, d: Text, h: Text, mi: Text, s: Text, m: Text)
    requires |y| == 4 && |mo| == 2 && |d| == 2 && |h| == 2 && |mi| == 2 && |s| == 2 && |m| == 3
    ensures var r := y + "-" + mo + "-" + d + "T" + h + ":" + mi + ":" + s + "." + m + "Z";
      && |r| == 24
      && r[4] == '-' && r[7] == '-' && r[10] == 'T' && r[13] == ':' && r[16] == ':' && r[19] == '.' && r[23] == 'Z'
      && r[0..4] == y && r[5..7] == mo && r[8..10] == d && r[11..13] == h
      && r[14..16] == mi && r[17..19] == s && r[20..23] == m
  {
    var a := y + "-" + mo + "-" + d + "T";
    assert |a| == 11 && a[4] == '-' && a[7] == '-' && a[10] == 'T';
    assert a[0..4] == y && a[5..7] == mo && a[8..10] == d;
    var b := h + ":" + mi + ":" + s + "." + m + "Z";
    assert |b| == 13 && b[2] == ':' && b[5] == ':' && b[8] == '.' && b[12] == 'Z';
    assert b[0..2] == h && b[3..5] == mi && b[6..8] == s && b[9..12] == m;
    var r := y + "-" + mo + "-" + d + "T" + h + ":" + mi + ":" + s + "." + m + "Z";
    assert r == a + b;
    assert r[0..11] == a && r[11..24] == b;
    assert r[0..4] == a[0..4] && r[5..7] == a[5..7] && r[8..10] == a[8..10];
    assert r[11..13] == b[0..2] && r[14..16] == b[3..5] && r[17..19] == b[6..8] && r[20..23] == b[9..12];
  }

  /**
   * With an in-range calendar time the text is exactly
   * `YYYY-MM-DDTHH:MM:SS.mmmZ`, 24 bytes, and each numeric field reads back
   * as the value it came from; the milliseconds are `epochMs % 1000`.
   */
  lemma IsoShape(epochMs: U64, gmtime: I64 -> Tm)
    requires epochMs != 0 && InRange(gmtime(epochMs / 1000))
    ensures var r := FormatIso8601(epochMs, gmtime);
      var t := gmtime(epochMs / 1000);
      && |r| == 24
      && r[4] == '-' && r[7] == '-' && r[10] == 'T' && r[13] == ':' && r[16] == ':' && r[19] == '.' && r[23] == 'Z'
      && ReadNumber(r[0..4]) == Some(t.year + 1900)
      && ReadNumber(r[5..7]) == Some(t.mon + 1)
      && ReadNumber(r[8..10]) == Some(t.mday)
      && ReadNumber(r[11..13]) == Some(t.hour)
      && ReadNumber(r[14..16]) == Some(t.min)
      && ReadNumber(r[17..19]) == Some(t.sec)
      && ReadNumber(r[20..23]) == Some(epochMs % 1000)
  {
    var t := gmtime(epochMs / 1000);
    var ms := epochMs % 1000;
    IsoFields(t, ms);
  }

  /** The fields of an in-range calendar time sit at fixed places and read back as their values. */
  lemma IsoFields(t: Tm, ms: nat)
    requires InRange(t) && ms < 1000
    ensures var r := IsoFull(t, ms);
      && |r| == 24 && IsoText(t, ms) == r
      && r[4] == '-' && r[7] == '-' && r[10] == 'T' && r[13] == ':' && r[16] == ':' && r[19] == '.' && r[23] == 'Z'
      && ReadNumber(r[0..4]) == Some(t.year + 1900)
      && ReadNumber(r[5..7]) == Some(t.mon + 1)
      && ReadNumber(r[8..10]) == Some(t.mday)
      && ReadNumber(r[11..13]) == Some(t.hour)
      && ReadNumber(r[14..16]) == Some(t.min)
      && ReadNumber(r[17..19]) == Some(t.sec)
      && ReadNumber(r[20..23]) == Some(ms)
  {
    assert Pow10(2) == 100 && Pow10(3) == 1000 && Pow10(4) == 10000;
    PaddedExact(t.year + 1900, 4);
    PaddedExact(t.mon + 1, 2);
    PaddedExact(t.mday, 2);
    PaddedExact(t.hour, 2);
    PaddedExact(t.min, 2);
    PaddedExact(t.sec, 2);
    PaddedExact(ms, 3);
    IsoRead(IsoFull(t, ms),
      PaddedInt(t.year + 1900, 4), PaddedInt(t.mon + 1, 2), PaddedInt(t.mday, 2),
      PaddedInt(t.hour, 2), PaddedInt(t.min, 2), PaddedInt(t.sec, 2), PaddedInt(ms, 3),
      t.year + 1900, t.mon + 1, t.mday, t.hour, t.min, t.sec, ms);
  }

  /** The numeric fields of a `YYYY-MM-DDTHH:MM:SS.mmmZ` text read back as the values printed there. */
  lemma IsoRead(r: Text, y: Text, mo: Text, d: Text, h: Text, mi: Text, s: Text, m: Text,
                Y: int, MO: int, D: int, H: int, MI: int, S: int, M: int)
    requires |y| == 4 && |mo| == 2 && |d| == 2 && |h| == 2 && |mi| == 2 && |s| == 2 && |m| == 3
    requires r == IsoJoin(y, mo, d, h, mi, s, m)
    requires ReadNumber(y) == Some(Y) && ReadNumber(mo) == Some(MO) && ReadNumber(d) == Some(D)
    requires ReadNumber(h) == Some(H) && ReadNumber(mi) == Some(MI) && ReadNumber(s) == Some(S)
    requires ReadNumber(m) == Some(M)
    ensures |r| == 24 && Prefix(r, 31) == r
    ensures r[4] == '-' && r[7] == '-' && r[10] == 'T' && r[13] == ':' && r[16] == ':' && r[19] == '.' && r[23] == 'Z'
    ensures ReadNumber(r[0..4]) == Some(Y) && ReadNumber(r[5..7]) == Some(MO) && ReadNumber(r[8..10]) == Some(D)
    ensures ReadNumber(r[11..13]) == Some(H) && ReadNumber(r[14..16]) == Some(MI) && ReadNumber(r[17..19]) == Some(S)
    ensures ReadNumber(r[20..23]) == Some(M)
  {
    IsoPieces(r, y, mo, d, h, mi, s, m);
    ReadAt(r, 0, 4, y, Y);
    ReadAt(r, 5, 7, mo, MO);
    ReadAt(r, 8, 10, d, D);
    ReadAt(r, 11, 13, h, H);
    ReadAt(r, 14, 16, mi, MI);
    ReadAt(r, 17, 19, s, S);
    ReadAt(r, 20, 23, m, M);
  }

  /** A text assembled as `YYYY-MM-DDTHH:MM:SS.mmmZ` has its pieces at fixed places. */
  lemma IsoPieces(r: Text, y: Text, mo: Text, d: Text, h: Text, mi: Text, s: Text, m: Text)
    requires |y| == 4 && |mo| == 2 && |d| == 2 && |h| == 2 && |mi| == 2 && |s| == 2 && |m| == 3
    requires r == IsoJoin(y, mo, d, h, mi, s, m)
    ensures |r| == 24 && Prefix(r, 31) == r
    ensures r[4] == '-' && r[7] == '-' && r[10] == 'T' && r[13] == ':' && r[16] == ':' && r[19] == '.' && r[23] == 'Z'
    ensures r[0..4] == y && r[5..7] == mo && r[8..10] == d && r[11..13] == h
    ensures r[14..16] == mi && r[17..19] == s && r[20..23] == m
  {
    IsoLayout(y, mo, d, h, mi, s, m);
  }

  /** A slice equal to a piece reads back as that piece's value. */
  lemma ReadAt(r: Text, lo: nat, hi: nat, piece: Text, v: int)
    requires lo <= hi <= |r| && r[lo..hi] == piece && ReadNumber(piece) == Some(v)
    ensures ReadNumber(r[lo..hi]) == Some(v)
  {
  }
}
