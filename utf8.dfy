/**
  UTF-8 well-formedness, as Rust's `str::from_utf8` (behind `CStr::to_str`)
  checks it: the well-formed byte sequences of the Unicode Standard,
  Table 3-7, so no overlong forms, no surrogates and nothing above U+10FFFF.
 */
module Utf8 {
  import opened Ints

  predicate IsContinuation(b: u8) { 0x80 <= b <= 0xBF }

  /** Length of the well-formed scalar encoding that starts `s`, or 0 when `s` starts ill-formed. */
  function LeadingScalarLength(s: seq<u8>): (n: nat)
    requires |s| > 0
    ensures n <= 4 && n <= |s|
    ensures n == 1 <==> s[0] < 0x80
    ensures n > 1 ==> forall k :: 1 <= k < n ==> IsContinuation(s[k])
  {
    var b := s[0];
    if b < 0x80 then 1
    else if 0xC2 <= b <= 0xDF then
      if |s| >= 2 && IsContinuation(s[1]) then 2 else 0
    else if b == 0xE0 then
      if |s| >= 3 && 0xA0 <= s[1] <= 0xBF && IsContinuation(s[2]) then 3 else 0
    else if 0xE1 <= b <= 0xEC || 0xEE <= b <= 0xEF then
      if |s| >= 3 && IsContinuation(s[1]) && IsContinuation(s[2]) then 3 else 0
    else if b == 0xED then
      if |s| >= 3 && 0x80 <= s[1] <= 0x9F && IsContinuation(s[2]) then 3 else 0
    else if b == 0xF0 then
      if |s| >= 4 && 0x90 <= s[1] <= 0xBF && IsContinuation(s[2]) && IsContinuation(s[3]) then 4 else 0
    else if 0xF1 <= b <= 0xF3 then
      if |s| >= 4 && IsContinuation(s[1]) && IsContinuation(s[2]) && IsContinuation(s[3]) then 4 else 0
    else if b == 0xF4 then
      if |s| >= 4 && 0x80 <= s[1] <= 0x8F && IsContinuation(s[2]) && IsContinuation(s[3]) then 4 else 0
    else 0
  }

  /** `s` splits into well-formed scalar encodings. */
  predicate ValidUtf8(s: seq<u8>)
    ensures ValidUtf8(s) && s != [] ==> s[0] < 0x80 || 0xC2 <= s[0] <= 0xF4
    ensures ValidUtf8(s) && s != [] ==> s[|s| - 1] < 0x80 || IsContinuation(s[|s| - 1])
    decreases |s|
  {
    s == [] || (LeadingScalarLength(s) > 0 && ValidUtf8(s[LeadingScalarLength(s)..]))
  }

  predicate IsAscii(s: seq<u8>) { forall k :: 0 <= k < |s| ==> s[k] < 0x80 }

  /** Every ASCII byte string, the empty one included, is valid UTF-8. */
  lemma {:induction false} AsciiIsValidUtf8(s: seq<u8>)
    requires IsAscii(s)
    ensures ValidUtf8(s)
  {
    if s != [] {
      assert LeadingScalarLength(s) == 1;
      assert IsAscii(s[1..]) by {
        forall k | 0 <= k < |s[1..]| ensures s[1..][k] < 0x80 { assert s[1..][k] == s[k + 1]; }
      }
      AsciiIsValidUtf8(s[1..]);
    }
  }

  /** A continuation byte cannot start a string, an encoded surrogate is rejected, and so is an overlong NUL. */
  lemma IllFormedExamples()
    ensures !ValidUtf8([0x80])
    ensures !ValidUtf8([0xED, 0xA0, 0x80])
    ensures !ValidUtf8([0xC0, 0x80])
    ensures ValidUtf8([0xE2, 0x82, 0xAC])
  {
    assert LeadingScalarLength([0xE2, 0x82, 0xAC]) == 3;
    assert [0xE2, 0x82, 0xAC][3..] == [];
  }
}
