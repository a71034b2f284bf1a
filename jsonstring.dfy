/**
 * JSON string literals as section 7 of RFC 8259 defines them: inside the
 * quotes, the quotation mark, the reverse solidus and the control
 * characters U+0000 to U+001F must be escaped. The JSON builder copies its
 * strings without this escaping; `Escape` is the escaping it leaves out,
 * and `Unescape` and `StringEnd` are what a reader of the body does with
 * a string literal. Strings are octets here, so `\u` escapes are read for
 * code points up to U+00FF only.
 */
module JsonStrings {
  import opened Wrappers
  import opened Bytes
  import opened PercentEncoding

  /** The escape for one octet: `\"`, `\\`, `\u00XX` for a control character, else the octet itself. */
  function EscapeByte(c: Byte): (e: Text)
    ensures 1 <= |e| <= 6
  {
    if c == '"' then ['\\', '"']
    else if c == '\\' then ['\\', '\\']
    else if (c as int) < 0x20 then ['\\', 'u', '0', '0', HexDigit(c as int / 16), HexDigit(c as int % 16)]
    else [c]
  }

  /** The contents of a string literal for `s`, octet by octet. */
  function Escape(s: Text): Text
  {
    if s == [] then [] else EscapeByte(s[0]) + Escape(s[1..])
  }

  /** The value of a hexadecimal digit of either case. */
  function HexNibble(h: Byte): Option<nat>
  {
    if '0' <= h <= '9' then Some(h as int - '0' as int)
    else if 'A' <= h <= 'F' then Some(h as int - 'A' as int + 10)
    else if 'a' <= h <= 'f' then Some(h as int - 'a' as int + 10)
    else None
  }

  /** The octet a two-character escape `\x` stands for. */
  function ShortEscape(x: Byte): Option<Byte>
  {
    match x
    case '"' => Some('"')
    case '\\' => Some('\\')
    case '/' => Some('/')
    case 'b' => Some(8 as char)
    case 'f' => Some(12 as char)
    case 'n' => Some(10 as char)
    case 'r' => Some(13 as char)
    case 't' => Some(9 as char)
    case _ => None
  }

  function Prepend(c: Byte, rest: Option<Text>): Option<Text>
  {
    match rest
    case None => None
    case Some(r) => Some([c] + r)
  }

  /**
   * The octets the contents of a string literal stand for: escapes
   * resolved, and `None` for a bare quotation mark, a bare control
   * character or an escape the grammar does not allow.
   */
  function Unescape(t: Text): Option<Text>
  {
    if t == [] then Some([])
    else if t[0] == '"' || (t[0] as int) < 0x20 then None
    else if t[0] != '\\' then Prepend(t[0], Unescape(t[1..]))
    else if |t| < 2 then None
    else if ShortEscape(t[1]).Some? then Prepend(ShortEscape(t[1]).value, Unescape(t[2..]))
    else if |t| >= 6 && t[1] == 'u' && t[2] == '0' && t[3] == '0' && HexNibble(t[4]).Some? && HexNibble(t[5]).Some? then
      Prepend((HexNibble(t[4]).value * 16 + HexNibble(t[5]).value) as char, Unescape(t[6..]))
    else None
  }

  function Shift(n: Option<nat>, d: nat): Option<nat>
  {
    match n
    case None => None
    case Some(i) => Some(i + d)
  }

  /**
   * Where a reader finds the closing quotation mark of a string literal
   * whose contents start at `t[0]`: the first `"` that is not the second
   * character of an escape.
   */
  function StringEnd(t: Text): Option<nat>
  {
    if t == [] then None
    else if t[0] == '"' then Some(0)
    else if t[0] == '\\' && |t| >= 2 then Shift(StringEnd(t[2..]), 2)
    else Shift(StringEnd(t[1..]), 1)
  }

  lemma HexNibbleDigit(v: nat)
    requires v < 16
    ensures HexNibble(HexDigit(v)) == Some(v)
  {
  }

  /** Reading an escaped octet gives the octet back. */
  lemma UnescapeByte(c: Byte, rest: Text)
    ensures Unescape(EscapeByte(c) + rest) == Prepend(c, Unescape(rest))
  {
    var t := EscapeByte(c) + rest;
    if c == '"' || c == '\\' {
      assert t[2..] == rest;
    } else if (c as int) < 0x20 {
      var hi, lo := c as int / 16, c as int % 16;
      HexNibbleDigit(hi);
      HexNibbleDigit(lo);
      assert t[1] == 'u' && t[4] == HexDigit(hi) && t[5] == HexDigit(lo);
      assert t[6..] == rest;
      assert (hi * 16 + lo) as char == c;
    } else {
      assert t[1..] == rest;
    }
  }

  /** Reading the escaped contents gives the original string back. */
  lemma {:induction false} UnescapeEscape(s: Text)
    ensures Unescape(Escape(s)) == Some(s)
  {
    if s != [] {
      UnescapeEscape(s[1..]);
      UnescapeByte(s[0], Escape(s[1..]));
      assert [s[0]] + s[1..] == s;
    }
  }

  /** Escaping is one-to-one: different strings never give the same literal. */
  lemma EscapeInjective(s: Text, u: Text)
    requires Escape(s) == Escape(u)
    ensures s == u
  {
    UnescapeEscape(s);
    UnescapeEscape(u);
  }

  /** Octets that are neither a quotation mark nor a reverse solidus are stepped over one by one. */
  lemma {:induction false} EndAfterPlain(d: Text, u: Text)
    requires forall i :: 0 <= i < |d| ==> d[i] != '"' && d[i] != '\\'
    ensures StringEnd(d + u) == Shift(StringEnd(u), |d|)
  {
    if d == [] {
      assert d + u == u;
    } else {
      EndAfterPlain(d[1..], u);
      assert (d + u)[1..] == d[1..] + u;
    }
  }

  /** An escaped octet holds no closing quotation mark: the reader steps over it. */
  lemma EndAfterByte(c: Byte, u: Text)
    ensures StringEnd(EscapeByte(c) + u) == Shift(StringEnd(u), |EscapeByte(c)|)
  {
    var t := EscapeByte(c) + u;
    if c == '"' || c == '\\' {
      assert t[2..] == u;
    } else if (c as int) < 0x20 {
      var d: Text := ['0', '0', HexDigit(c as int / 16), HexDigit(c as int % 16)];
      assert t[2..] == d + u;
      EndAfterPlain(d, u);
    } else {
      assert t[1..] == u;
    }
  }

  /**
   * Whatever follows, the closing quotation mark written after the escaped
   * contents is the one a reader stops at: no string can end early.
   */
  lemma {:induction false} EscapedStringEnds(s: Text, rest: Text)
    ensures StringEnd(Escape(s) + "\"" + rest) == Some(|Escape(s)|)
  {
    if s == [] {
      assert Escape(s) + "\"" + rest == "\"" + rest;
    } else {
      var tail := Escape(s[1..]) + "\"" + rest;
      EscapedStringEnds(s[1..], rest);
      assert Escape(s) + "\"" + rest == EscapeByte(s[0]) + tail;
      EndAfterByte(s[0], tail);
    }
  }

  lemma SliceAfter(b: Text, head: Text, e: Text, q: Text, r: Text)
    requires b == head + (e + q + r)
    ensures b[|head|..] == e + q + r && b[|head|..|head| + |e|] == e
  {
  }

  /** The closing quotation mark written after an escaped string is where a reader stops. */
  lemma EndsAt(b: Text, head: Text, v: Text, rest: Text)
    requires b == head + (Escape(v) + "\"" + rest)
    ensures |b| > |head| + |Escape(v)|
    ensures StringEnd(b[|head|..]) == Some(|Escape(v)|)
  {
    SliceAfter(b, head, Escape(v), "\"", rest);
    EscapedStringEnds(v, rest);
  }
}
