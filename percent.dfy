/**
 * Percent-encoding of free text for the query string and the form body:
 * the unreserved characters of section 2.3 of RFC 3986 pass through and
 * every other octet becomes `%` and two upper-case hexadecimal digits, as in
 * section 2.1 of RFC 3986. Space becomes `%20`, never `+`.
 */
module PercentEncoding {
  import opened Wrappers
  import opened Bytes
  import opened Buffer

  /** `tr_is_unreserved`: `A-Z a-z 0-9 - . _ ~`. */
  predicate IsUnreserved(c: Byte)
  {
    ('A' <= c <= 'Z') || ('a' <= c <= 'z') || ('0' <= c <= '9') || c == '-' || c == '.' || c == '_' || c == '~'
  }

  /** Entry `v` of the table `"0123456789ABCDEF"`. */
  function HexDigit(v: nat): (h: Byte)
    requires v < 16
    ensures IsUnreserved(h)
  {
    if v < 10 then ('0' as int + v) as char else ('A' as int + v - 10) as char
  }

  /** The value of an upper-case hexadecimal digit. */
  function HexValue(h: Byte): Option<nat>
  {
    if '0' <= h <= '9' then Some(h as int - '0' as int)
    else if 'A' <= h <= 'F' then Some(h as int - 'A' as int + 10)
    else None
  }

  /** The rule for one octet: itself when unreserved, `%XX` otherwise. */
  function EncodeByte(c: Byte): Text
  {
    if IsUnreserved(c) then [c] else ['%', HexDigit(c as int / 16), HexDigit(c as int % 16)]
  }

  /** The encoding of a whole string, octet by octet. */
  function PercentEncode(s: Text): Text
  {
    if s == [] then [] else EncodeByte(s[0]) + PercentEncode(s[1..])
  }

  /** Percent-decoding: `%XX` becomes the octet `XX`, any other octet stands for itself. */
  function PercentDecode(t: Text): Option<Text>
  {
    if t == [] then Some([])
    else if t[0] != '%' then
      match PercentDecode(t[1..])
      case Some(rest) => Some([t[0]] + rest)
      case None => None
    else if |t| < 3 || HexValue(t[1]).None? || HexValue(t[2]).None? then None
    else
      match PercentDecode(t[3..])
      case Some(rest) => Some([(HexValue(t[1]).value * 16 + HexValue(t[2]).value) as char] + rest)
      case None => None
  }

  /** Number of octets of `s` that pass through unchanged. */
  function CountUnreserved(s: Text): (n: nat)
    ensures n <= |s|
  {
    if s == [] then 0 else (if IsUnreserved(s[0]) then 1 else 0) + CountUnreserved(s[1..])
  }

  /** `tr_append_urlenc` tests for space in a branch of its own: that branch agrees with the general rule. */
  lemma SpaceIsPercent20()
    ensures EncodeByte(' ') == "%20"
  {
  }

  /** Encoding distributes over concatenation, so it can be done one octet at a time. */
  lemma {:induction false} EncodeAppend(a: Text, b: Text)
    ensures PercentEncode(a + b) == PercentEncode(a) + PercentEncode(b)
  {
    if a == [] {
      assert a + b == b;
    } else {
      assert (a + b)[0] == a[0] && (a + b)[1..] == a[1..] + b;
      EncodeAppend(a[1..], b);
    }
  }

  /** Encoding one more octet of `s` extends the encoding by that octet's rule. */
  lemma EncodeSnoc(text: Text, s: Text, i: nat)
    requires i < |s|
    ensures text + PercentEncode(s[..i]) + EncodeByte(s[i]) == text + PercentEncode(s[..i + 1])
  {
    assert PercentEncode([s[i]]) == EncodeByte(s[i]);
    assert s[..i + 1] == s[..i] + [s[i]];
    EncodeAppend(s[..i], [s[i]]);
  }

  /** Every unreserved octet costs one byte of output and every other octet three. */
  lemma {:induction false} EncodedLength(s: Text)
    ensures |PercentEncode(s)| == CountUnreserved(s) + 3 * (|s| - CountUnreserved(s))
  {
    if s != [] {
      EncodedLength(s[1..]);
    }
  }

  /** The output holds only unreserved octets and `%`: never `&`, `=`, `?`, `#` or space. */
  lemma {:induction false} EncodedAlphabet(s: Text)
    ensures forall i :: 0 <= i < |PercentEncode(s)| ==> IsUnreserved(PercentEncode(s)[i]) || PercentEncode(s)[i] == '%'
  {
    if s != [] {
      EncodedAlphabet(s[1..]);
    }
  }

  /** Unreserved text is its own encoding. */
  lemma {:induction false} UnreservedUnchanged(s: Text)
    requires forall i :: 0 <= i < |s| ==> IsUnreserved(s[i])
    ensures PercentEncode(s) == s
  {
    if s != [] {
      UnreservedUnchanged(s[1..]);
    }
  }

  /** Decoding the encoding gives back the input octets. */
  lemma {:induction false} DecodeEncode(s: Text)
    ensures PercentDecode(PercentEncode(s)) == Some(s)
  {
    if s != [] {
      var c := s[0];
      var t := PercentEncode(s);
      DecodeEncode(s[1..]);
      if IsUnreserved(c) {
        assert t[0] == c && t[1..] == PercentEncode(s[1..]);
      } else {
        var hi, lo := c as int / 16, c as int % 16;
        assert t[0] == '%' && t[1] == HexDigit(hi) && t[2] == HexDigit(lo);
        assert t[3..] == PercentEncode(s[1..]);
        assert HexValue(HexDigit(hi)) == Some(hi) && HexValue(HexDigit(lo)) == Some(lo);
        assert (hi * 16 + lo) as char == c;
      }
      assert [c] + s[1..] == s;
    }
  }

  /** Different inputs never share an encoding. */
  lemma EncodeInjective(s: Text, u: Text)
    requires PercentEncode(s) == PercentEncode(u)
    ensures s == u
  {
    DecodeEncode(s);
    DecodeEncode(u);
  }

  /** The loop body of `tr_append_urlenc`, with the source's three branches (unreserved, space, any other octet). */
  method AppendEncodedByte(out: array<Byte>, idx: nat, ghost text: Text, c: Byte) returns (next: nat)
    requires Holds(out, idx, text)
    modifies out
    ensures Holds(out, next, text + EncodeByte(c))
  {
    if IsUnreserved(c) {
      next := Emit(out, idx, text, [c]);
    } else if c == ' ' {
      next := Emit(out, idx, text, "%20");
    } else {
      next := Emit(out, idx, text, ['%', HexDigit(c as int / 16), HexDigit(c as int % 16)]);
    }
  }

  /** `tr_append_urlenc`: one bounded append per octet of `s`. */
  method AppendUrlEncoded(out: array<Byte>, idx: nat, ghost text: Text, s: Text) returns (next: nat)
    requires Holds(out, idx, text)
    modifies out
    ensures Holds(out, next, text + PercentEncode(s))
  {
    next := idx;
    var i := 0;
    while i < |s|
      invariant 0 <= i <= |s|
      invariant Holds(out, next, text + PercentEncode(s[..i]))
    {
      next := AppendEncodedByte(out, next, text + PercentEncode(s[..i]), s[i]);
      EncodeSnoc(text, s, i);
      i := i + 1;
    }
    assert s[..i] == s;
  }
}
