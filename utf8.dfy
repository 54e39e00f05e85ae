/**
 * Strict UTF-8 decoding of a byte string, as `bytes.decode()` performs it
 * with its default codec and error handling: a byte sequence decodes only
 * when it is a concatenation of well-formed UTF-8 sequences (table 3-7 of
 * the Unicode Standard, section 3.9); otherwise decoding fails.
 */
module Utf8 {
  import opened Results

  predicate IsByte(b: int)
  {
    0 <= b < 256
  }

  predicate AllBytes(bs: seq<int>)
  {
    forall i | 0 <= i < |bs| :: IsByte(bs[i])
  }

  predicate IsContinuation(b: int)
  {
    0x80 <= b <= 0xBF
  }

  /** The allowed second byte of a three-byte sequence (no overlongs, no surrogates). */
  predicate SecondOfThree(b0: int, b1: int)
  {
    if b0 == 0xE0 then 0xA0 <= b1 <= 0xBF
    else if b0 == 0xED then 0x80 <= b1 <= 0x9F
    else IsContinuation(b1)
  }

  /** The allowed second byte of a four-byte sequence (no overlongs, nothing above U+10FFFF). */
  predicate SecondOfFour(b0: int, b1: int)
  {
    if b0 == 0xF0 then 0x90 <= b1 <= 0xBF
    else if b0 == 0xF4 then 0x80 <= b1 <= 0x8F
    else IsContinuation(b1)
  }

  /** The first character of `bs` and how many bytes encode it, or None when `bs` does not start well-formed. */
  function DecodeFirst(bs: seq<int>): (r: Option<(char, nat)>)
    requires bs != [] && AllBytes(bs)
    ensures r.Some? ==> 1 <= r.value.1 <= |bs|
    ensures r.Some? && r.value.1 == 1 ==> bs[0] < 0x80
    ensures bs[0] < 0x80 ==> r == Some((bs[0] as char, 1))
    ensures 0x80 <= bs[0] <= 0xC1 || 0xF5 <= bs[0] ==> r == None
  {
    var b0 := bs[0];
    if b0 < 0x80 then
      Some((b0 as char, 1))
    else if 0xC2 <= b0 <= 0xDF then
      if |bs| >= 2 && IsContinuation(bs[1]) then
        Some((((b0 - 0xC0) * 0x40 + (bs[1] - 0x80)) as char, 2))
      else None
    else if 0xE0 <= b0 <= 0xEF then
      if |bs| >= 3 && SecondOfThree(b0, bs[1]) && IsContinuation(bs[2]) then
        Some((((b0 - 0xE0) * 0x1000 + (bs[1] - 0x80) * 0x40 + (bs[2] - 0x80)) as char, 3))
      else None
    else if 0xF0 <= b0 <= 0xF4 then
      if |bs| >= 4 && SecondOfFour(b0, bs[1]) && IsContinuation(bs[2]) && IsContinuation(bs[3]) then
        Some((((b0 - 0xF0) * 0x40000 + (bs[1] - 0x80) * 0x1000 + (bs[2] - 0x80) * 0x40 + (bs[3] - 0x80)) as char, 4))
      else None
    else
      None
  }

  /** The decoded string, or None where the codec raises `UnicodeDecodeError`. */
  function Decode(bs: seq<int>): (r: Option<string>)
    requires AllBytes(bs)
    ensures r.Some? ==> |r.value| <= |bs|
    ensures r.Some? && bs != [] ==> DecodeFirst(bs).Some? && |r.value| >= 1 && r.value[0] == DecodeFirst(bs).value.0
    decreases |bs|
  {
    if bs == [] then Some([])
    else
      match DecodeFirst(bs)
      case None => None
      case Some((c, n)) =>
        match Decode(bs[n..])
        case None => None
        case Some(rest) => Some([c] + rest)
  }

  predicate AllAscii(bs: seq<int>)
  {
    forall i | 0 <= i < |bs| :: 0 <= bs[i] < 0x80
  }

  /** Bytes below 0x80 decode one character each, with the byte as code point. */
  lemma {:induction false} DecodeAscii(bs: seq<int>)
    requires AllAscii(bs)
    ensures Decode(bs).Some? && |Decode(bs).value| == |bs|
    ensures forall k | 0 <= k < |bs| :: Decode(bs).value[k] as int == bs[k]
  {
    if bs != [] {
      DecodeAscii(bs[1..]);
      var rest := Decode(bs[1..]).value;
      assert Decode(bs).value == [bs[0] as char] + rest;
    }
  }

  /**
   * A decoded string never has more characters than there were bytes, and
   * has as many only when every byte is below 0x80.
   */
  lemma {:induction false} DecodeLength(bs: seq<int>)
    requires AllBytes(bs) && Decode(bs).Some?
    ensures |Decode(bs).value| <= |bs|
    ensures |Decode(bs).value| == |bs| ==> AllAscii(bs)
  {
    if bs != [] {
      var n := DecodeFirst(bs).value.1;
      DecodeLength(bs[n..]);
      assert |Decode(bs).value| == 1 + |Decode(bs[n..]).value|;
      if |Decode(bs).value| == |bs| {
        assert n == 1;
        assert forall i | 1 <= i < |bs| :: bs[i] == bs[1..][i - 1];
      }
    }
  }
}
