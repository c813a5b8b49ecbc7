/**
 * Go's `len` on a string counts the bytes of its UTF-8 encoding. A Dafny
 * string is a sequence of Unicode scalar values, so the byte length is
 * computed from the code points.
 */
module Utf8 {

  /** Number of bytes UTF-8 uses for one code point. */
  function CharByteLen(c: char): (n: nat)
    ensures 1 <= n <= 4
    ensures n == 1 <==> c as int < 0x80
  {
    if c as int < 0x80 then 1
    else if c as int < 0x800 then 2
    else if c as int < 0x10000 then 3
    else 4
  }

  /** `len(s)` in Go, for a string `s` holding valid UTF-8. */
  function ByteLen(s: string): nat {
    if s == [] then 0 else CharByteLen(s[0]) + ByteLen(s[1..])
  }

  /** Every code point is below 0x80. */
  predicate IsAscii(s: string) {
    forall i :: 0 <= i < |s| ==> s[i] as int < 0x80
  }

  /** Concatenating ASCII text gives ASCII text. */
  lemma AsciiAppend(a: string, b: string)
    requires IsAscii(a) && IsAscii(b)
    ensures IsAscii(a + b)
  {
    forall i | 0 <= i < |a + b|
      ensures (a + b)[i] as int < 0x80
    {
      if i < |a| {
        assert (a + b)[i] == a[i];
      } else {
        assert (a + b)[i] == b[i - |a|];
      }
    }
  }

  /** Byte length is additive over concatenation. */
  lemma {:induction false} ByteLenAppend(a: string, b: string)
    ensures ByteLen(a + b) == ByteLen(a) + ByteLen(b)
  {
    if a == [] {
      assert a + b == b;
    } else {
      assert (a + b)[0] == a[0];
      assert (a + b)[1..] == a[1..] + b;
      ByteLenAppend(a[1..], b);
    }
  }

  /** A string takes at least one and at most four bytes per code point. */
  lemma {:induction false} ByteLenBounds(s: string)
    ensures |s| <= ByteLen(s) <= 4 * |s|
  {
    if s != [] {
      ByteLenBounds(s[1..]);
    }
  }

  /** On ASCII text Go's byte length is the number of characters. */
  lemma {:induction false} AsciiByteLen(s: string)
    requires IsAscii(s)
    ensures ByteLen(s) == |s|
  {
    if s != [] {
      assert IsAscii(s[1..]) by {
        forall i | 0 <= i < |s[1..]|
          ensures s[1..][i] as int < 0x80
        {
          assert s[1..][i] == s[i + 1];
        }
      }
      AsciiByteLen(s[1..]);
    }
  }
}
