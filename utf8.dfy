/**
 * PHP's `strlen` counts bytes. The strings the vendor SDK hands back are
 * UTF-8, so `strlen` of a text is the length of its UTF-8 encoding, which
 * this module computes from the text's Unicode scalar values.
 */
module Utf8 {

  /** Number of bytes UTF-8 uses for one scalar value. */
  function Width(c: char): nat {
    if c as int < 0x80 then 1
    else if c as int < 0x800 then 2
    else if c as int < 0x10000 then 3
    else 4
  }

  predicate IsAscii(c: char) {
    c as int < 0x80
  }

  /** `strlen` of the UTF-8 encoding of `s`. */
  function ByteLength(s: string): nat {
    if s == [] then 0 else Width(s[0]) + ByteLength(s[1..])
  }

  /** Every scalar value takes one to four bytes. */
  lemma {:induction false} ByteLengthBounds(s: string)
    ensures |s| <= ByteLength(s) <= 4 * |s|
  {
    if s != [] {
      ByteLengthBounds(s[1..]);
    }
  }

  /** On ASCII text `strlen` equals the number of characters. */
  lemma {:induction false} ByteLengthAscii(s: string)
    ensures (forall i :: 0 <= i < |s| ==> IsAscii(s[i])) <==> ByteLength(s) == |s|
  {
    if s != [] {
      ByteLengthAscii(s[1..]);
      ByteLengthBounds(s[1..]);
      if forall i :: 0 <= i < |s| ==> IsAscii(s[i]) {
        assert forall i :: 0 <= i < |s[1..]| ==> IsAscii(s[1..][i]) by {
          forall i | 0 <= i < |s[1..]| ensures IsAscii(s[1..][i]) {
            assert s[1..][i] == s[i + 1];
          }
        }
      }
      if ByteLength(s) == |s| {
        assert Width(s[0]) == 1;
        forall i | 0 <= i < |s| ensures IsAscii(s[i]) {
          if i > 0 { assert s[i] == s[1..][i - 1]; }
        }
      }
    }
  }
}
