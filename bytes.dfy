/** Optional values: a C null pointer, a NaN double or another "omit" sentinel. */
module Wrappers {
  datatype Option<+T> = None | Some(value: T)
}

/**
 * Octets and the integer-to-text conversions the encoder performs with
 * `snprintf("%u")`, `"%d"`, `"%llu"` and `"%0Nd"`.
 */
module Bytes {
  import opened Wrappers

  /** One C `char` as the encoder handles it: an octet. */
  type Byte = c: char | c as int < 256 witness 'A'

  /** The bytes of a C string before its terminating NUL. */
  type Text = seq<Byte>

  const NUL: Byte := '\0'

  /** The bytes of a C string never include its terminator. */
  predicate IsCString(t: Text)
  {
    forall i :: 0 <= i < |t| ==> t[i] != NUL
  }

  /** Joining two texts without NUL gives a text without NUL. */
  lemma CStringJoin(a: Text, b: Text)
    requires IsCString(a) && IsCString(b)
    ensures IsCString(a + b)
  {
    forall i | 0 <= i < |a + b|
      ensures (a + b)[i] != NUL
    {
      if i < |a| { assert (a + b)[i] == a[i]; } else { assert (a + b)[i] == b[i - |a|]; }
    }
  }

  function Min(a: int, b: int): int { if a <= b then a else b }

  predicate IsDigit(b: Byte) { '0' <= b <= '9' }

  predicate AllDigits(s: Text) { forall i :: 0 <= i < |s| ==> IsDigit(s[i]) }

  function DigitChar(d: nat): (b: Byte)
    requires d < 10
    ensures IsDigit(b) && b as int - '0' as int == d
  {
    (48 + d) as char
  }

  /** `%u` / `%llu`: the shortest decimal numeral of `n`. */
  function Decimal(n: nat): (r: Text)
    decreases n
  {
    if n < 10 then [DigitChar(n)] else Decimal(n / 10) + [DigitChar(n % 10)]
  }

  /** `%d` of a signed value: a leading `-` for negative numbers. */
  function SignedDecimal(i: int): Text
  {
    if i < 0 then "-" + Decimal(-i) else Decimal(i)
  }

  /** The value of a numeral, most significant digit first. */
  function DigitsValue(s: Text): nat
    requires AllDigits(s)
  {
    if s == [] then 0 else DigitsValue(s[..|s| - 1]) * 10 + (s[|s| - 1] as int - '0' as int)
  }

  /** Reading a numeral back: its value, or `None` when some byte is not a digit. */
  function ReadNumber(s: Text): Option<nat>
  {
    if s == [] then Some(0)
    else if !IsDigit(s[|s| - 1]) then None
    else
      match ReadNumber(s[..|s| - 1])
      case None => None
      case Some(v) => Some(v * 10 + (s[|s| - 1] as int - '0' as int))
  }

  /** A numeral of digits only reads back as its value. */
  lemma {:induction false} ReadNumberDigits(s: Text)
    requires AllDigits(s)
    ensures ReadNumber(s) == Some(DigitsValue(s))
  {
    if s != [] {
      ReadNumberDigits(s[..|s| - 1]);
    }
  }

  /** `Decimal` is a numeral that reads back as `n`, without leading zeros. */
  lemma {:induction false} DecimalRoundTrip(n: nat)
    ensures |Decimal(n)| >= 1 && AllDigits(Decimal(n))
    ensures DigitsValue(Decimal(n)) == n
    ensures |Decimal(n)| > 1 ==> Decimal(n)[0] != '0'
  {
    if n >= 10 {
      DecimalRoundTrip(n / 10);
      var r := Decimal(n);
      assert r[..|r| - 1] == Decimal(n / 10);
    }
  }

  /** `%0Nd` of a non-negative value: padded with zeros to at least `width` digits. */
  function ZeroPadded(n: nat, width: nat): (r: Text)
  {
    var d := Decimal(n);
    seq(width - Min(width, |d|), _ => '0') + d
  }

  /** `%0Nd` of any `int`: the sign takes one of the `width` positions, as in C. */
  function PaddedInt(i: int, width: nat): Text
  {
    if i < 0 then "-" + ZeroPadded(-i, if width > 0 then width - 1 else 0) else ZeroPadded(i, width)
  }

  /** A value below `10^width` prints as exactly `width` digits that read back as it. */
  lemma ZeroPaddedExact(n: nat, width: nat)
    requires n < Pow10(width)
    ensures |ZeroPadded(n, width)| == Max1(width)
    ensures AllDigits(ZeroPadded(n, width)) && DigitsValue(ZeroPadded(n, width)) == n
  {
    var d := Decimal(n);
    DecimalRoundTrip(n);
    DecimalLength(n, width);
    var z := seq(width - Min(width, |d|), _ => '0');
    LeadingZeros(z, d);
  }

  function Pow10(k: nat): nat { if k == 0 then 1 else 10 * Pow10(k - 1) }

  function Max1(k: nat): nat { if k == 0 then 1 else k }

  /** A value below `10^width` needs at most `max(width, 1)` digits. */
  lemma {:induction false} DecimalLength(n: nat, width: nat)
    requires n < Pow10(width)
    ensures |Decimal(n)| <= Max1(width)
  {
    if n >= 10 {
      assert width >= 2;
      DecimalLength(n / 10, width - 1);
    }
  }

  /** Leading zeros do not change the value of a numeral. */
  lemma {:induction false} LeadingZeros(z: Text, d: Text)
    requires forall i :: 0 <= i < |z| ==> z[i] == '0'
    requires AllDigits(d)
    ensures AllDigits(z + d) && DigitsValue(z + d) == DigitsValue(d)
  {
    if d == [] {
      assert z + d == z;
      AllZeros(z);
    } else {
      var s := z + d;
      assert s[..|s| - 1] == z + d[..|d| - 1];
      LeadingZeros(z, d[..|d| - 1]);
    }
  }

  lemma {:induction false} AllZeros(z: Text)
    requires forall i :: 0 <= i < |z| ==> z[i] == '0'
    ensures AllDigits(z) && DigitsValue(z) == 0
  {
    if z != [] {
      AllZeros(z[..|z| - 1]);
    }
  }
}
