/**
 * The bounded writer every encoder uses: `tr_append` copies a C string into
 * a caller-owned `char` buffer at a cursor, truncating so that one byte is
 * always left for the terminating NUL.
 */
module Buffer {
  import opened Bytes

  /** The first `n` bytes of `text`, or all of it when it is shorter. */
  function Prefix(text: Text, n: nat): (r: Text)
    ensures |r| == Min(|text|, n) && r <= text
  {
    if |text| <= n then text else text[..n]
  }

  /**
   * The buffer holds, NUL-terminated at the cursor, as much of `text` as
   * fits: the state any run of appends starting at index 0 leaves behind.
   */
  ghost predicate Holds(out: array<Byte>, idx: nat, text: Text)
    reads out
  {
    && 0 < out.Length
    && idx == Min(|text|, out.Length - 1)
    && out[..idx] == text[..idx]
    && out[idx] == NUL
  }

  /**
   * `tr_append`. From a cursor past the end nothing is written; otherwise
   * `min(|s|, out.Length - 1 - idx)` bytes of `s` are copied, the cursor
   * advances by that count, a NUL follows them, and the count is returned.
   */
  method Append(out: array<Byte>, idx: nat, s: Text) returns (next: nat, copied: nat)
    modifies out
    ensures idx >= out.Length ==> next == idx && copied == 0 && out[..] == old(out[..])
    ensures idx < out.Length ==>
      && copied == Min(|s|, out.Length - 1 - idx)
      && next == idx + copied < out.Length
      && out[..] == old(out[..idx]) + s[..copied] + [NUL] + old(out[next + 1..])
  {
    var n := |s|;
    if idx >= out.Length {
      return idx, 0;
    }
    var avail := out.Length - idx;
    copied := if n < avail then n else avail - 1;
    // memcpy(out + idx, s, copied)
    var k := 0;
    while k < copied
      invariant 0 <= k <= copied
      invariant forall i :: 0 <= i < out.Length && !(idx <= i < idx + k) ==> out[i] == old(out[i])
      invariant forall i :: idx <= i < idx + k ==> out[i] == s[i - idx]
    {
      out[idx + k] := s[k];
      k := k + 1;
    }
    next := idx + copied;
    out[next] := NUL;
    ghost var want := old(out[..idx]) + s[..copied] + [NUL] + old(out[next + 1..]);
    assert |want| == out.Length;
    forall i | 0 <= i < out.Length
      ensures out[i] == want[i]
    {
      if i < idx {
      } else if i < next {
        assert want[i] == s[..copied][i - idx];
      } else if i == next {
      } else {
        assert want[i] == old(out[next + 1..])[i - next - 1];
      }
    }
    assert out[..] == want;
  }

  /** Appending to a buffer that holds a prefix of `text` leaves one holding a prefix of `text + s`. */
  method Emit(out: array<Byte>, idx: nat, ghost text: Text, s: Text) returns (next: nat)
    requires Holds(out, idx, text)
    modifies out
    ensures Holds(out, next, text + s)
  {
    var copied;
    next, copied := Append(out, idx, s);
    ghost var t := text + s;
    if idx < |text| {
      // the buffer is already full: nothing is copied
      assert out[..next] == t[..next];
    } else {
      assert out[..next] == old(out[..idx]) + s[..next - idx];
      assert t[..next] == text + s[..next - idx];
    }
  }

  /** Once the buffer is full, whatever follows the text it holds no longer matters. */
  lemma FullBufferHolds(out: array<Byte>, idx: nat, text: Text, rest: Text)
    requires Holds(out, idx, text) && idx < |text|
    ensures Holds(out, idx, text + rest)
  {
    assert (text + rest)[..idx] == text[..idx];
  }

  /** A buffer holding all of `text` and its terminator holds exactly `text`. */
  lemma HoldsWhole(out: array<Byte>, idx: nat, text: Text)
    requires Holds(out, idx, text) && |text| < out.Length
    ensures idx == |text| && out[..idx] == text
  {
  }

  /** What a buffer of `size` bytes shows of `text` is `Prefix(text, size - 1)`. */
  lemma HoldsPrefix(out: array<Byte>, idx: nat, text: Text)
    requires Holds(out, idx, text)
    ensures out[..idx] == Prefix(text, out.Length - 1) && idx <= out.Length - 1
  {
  }

  /** `strlen`: the index of the first NUL. */
  method CStringLength(a: array<Byte>) returns (n: nat)
    requires exists i :: 0 <= i < a.Length && a[i] == NUL
    ensures n < a.Length && a[n] == NUL
    ensures forall i :: 0 <= i < n ==> a[i] != NUL
  {
    n := 0;
    while a[n] != NUL
      invariant n < a.Length
      invariant forall i :: 0 <= i < n ==> a[i] != NUL
      decreases a.Length - n
    {
      n := n + 1;
    }
  }

  /** A buffer holding a prefix of a C string has its first NUL at the cursor. */
  lemma HoldsCString(out: array<Byte>, idx: nat, text: Text)
    requires Holds(out, idx, text) && IsCString(text)
    ensures out[idx] == NUL && forall i :: 0 <= i < idx ==> out[i] != NUL
  {
    forall i | 0 <= i < idx
      ensures out[i] != NUL
    {
      assert out[i] == out[..idx][i] == text[i];
    }
  }
}
