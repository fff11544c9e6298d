/**
 * Well-formed UTF-8, as accepted by Rust's `str::from_utf8` (which is what
 * `Message::payload_view::<str>` applies to a Kafka payload).  `Decode` is the
 * validator/decoder; `Encode` is its partner, and the two lemmas at the end
 * show that they are inverse to each other on every input.
 */
module Utf8 {
  import opened Wrappers

  type byte = b: int | 0 <= b < 256

  predicate IsContinuation(b: byte) {
    0x80 <= b < 0xC0
  }

  /** The bytes of one Unicode scalar value, shortest form. */
  function EncodeChar(c: char): (bs: seq<byte>)
    ensures 1 <= |bs| <= 4
  {
    var n := c as int;
    if n < 0x80 then
      [n]
    else if n < 0x800 then
      [0xC0 + n / 64, 0x80 + n % 64]
    else if n < 0x1_0000 then
      [0xE0 + n / 4096, 0x80 + (n / 64) % 64, 0x80 + n % 64]
    else
      [0xF0 + n / 262144, 0x80 + (n / 4096) % 64, 0x80 + (n / 64) % 64, 0x80 + n % 64]
  }

  function Encode(s: string): (bs: seq<byte>)
    ensures |s| <= |bs| <= 4 * |s|
  {
    if s == [] then [] else EncodeChar(s[0]) + Encode(s[1..])
  }

  /**
   * Decodes the scalar value at the front of `bs` and says how many bytes it
   * took; None when the front is not well-formed: a stray continuation byte,
   * a truncated sequence, an overlong form, a surrogate or a value above
   * U+10FFFF.
   */
  function DecodeFirst(bs: seq<byte>): (r: Option<(char, nat)>)
    requires |bs| > 0
    ensures r.Some? ==> 1 <= r.value.1 <= |bs|
  {
    var b0: int := bs[0];
    if b0 < 0x80 then
      Some((b0 as char, 1))
    else if 0xC2 <= b0 < 0xE0 then
      if |bs| >= 2 && IsContinuation(bs[1]) then
        Some((((b0 - 0xC0) * 64 + (bs[1] as int - 0x80)) as char, 2))
      else None
    else if 0xE0 <= b0 < 0xF0 then
      if |bs| >= 3 && IsContinuation(bs[1]) && IsContinuation(bs[2]) then
        var cp := (b0 - 0xE0) * 4096 + (bs[1] as int - 0x80) * 64 + (bs[2] as int - 0x80);
        if cp < 0x800 || 0xD800 <= cp < 0xE000 then None else Some((cp as char, 3))
      else None
    else if 0xF0 <= b0 < 0xF5 then
      if |bs| >= 4 && IsContinuation(bs[1]) && IsContinuation(bs[2]) && IsContinuation(bs[3]) then
        var cp := (b0 - 0xF0) * 262144 + (bs[1] as int - 0x80) * 4096 + (bs[2] as int - 0x80) * 64 + (bs[3] as int - 0x80);
        if cp < 0x1_0000 || cp > 0x10_FFFF then None else Some((cp as char, 4))
      else None
    else
      None
  }

  /** Some(text) exactly when `bs` is well-formed UTF-8. */
  function Decode(bs: seq<byte>): (r: Option<string>)
    ensures r.Some? ==> |r.value| <= |bs|
    decreases |bs|
  {
    if bs == [] then Some([])
    else
      match DecodeFirst(bs)
      case None => None
      case Some((c, k)) =>
        match Decode(bs[k..])
        case None => None
        case Some(rest) => Some([c] + rest)
  }

  predicate IsWellFormed(bs: seq<byte>) {
    Decode(bs).Some?
  }

  lemma DecodeFirstEncodeChar(c: char, rest: seq<byte>)
    ensures DecodeFirst(EncodeChar(c) + rest) == Some((c, |EncodeChar(c)|))
  {
    var n := c as int;
    var bs := EncodeChar(c) + rest;
    if n < 0x80 {
    } else if n < 0x800 {
      assert n == (n / 64) * 64 + n % 64;
    } else if n < 0x1_0000 {
      var q := n / 64;
      assert n == q * 64 + n % 64;
      assert q == (q / 64) * 64 + q % 64;
      assert n / 4096 == q / 64;
    } else {
      var q := n / 64;
      var q2 := q / 64;
      assert n == q * 64 + n % 64;
      assert q == q2 * 64 + q % 64;
      assert q2 == (q2 / 64) * 64 + q2 % 64;
      assert n / 4096 == q2;
      assert n / 262144 == q2 / 64;
    }
  }

  lemma Split64(n: int, q: int, r: int)
    requires 0 <= r < 64 && n == q * 64 + r
    ensures n / 64 == q && n % 64 == r
  {
  }

  lemma EncodeTwo(hi: int, lo: int)
    requires 2 <= hi < 32 && 0 <= lo < 64
    ensures var n := hi * 64 + lo; n / 64 == hi && n % 64 == lo
  {
    Split64(hi * 64 + lo, hi, lo);
  }

  lemma EncodeThree(hi: int, mid: int, lo: int)
    requires 0 <= hi < 16 && 0 <= mid < 64 && 0 <= lo < 64
    ensures var n := hi * 4096 + mid * 64 + lo;
      n / 64 == hi * 64 + mid && n % 64 == lo && n / 4096 == hi && (n / 64) % 64 == mid
  {
    var n := hi * 4096 + mid * 64 + lo;
    Split64(n, hi * 64 + mid, lo);
    Split64(hi * 64 + mid, hi, mid);
  }

  lemma EncodeFour(top: int, hi: int, mid: int, lo: int)
    requires 0 <= top < 5 && 0 <= hi < 64 && 0 <= mid < 64 && 0 <= lo < 64
    ensures var n := top * 262144 + hi * 4096 + mid * 64 + lo;
      n % 64 == lo && (n / 64) % 64 == mid && (n / 4096) % 64 == hi && n / 262144 == top
  {
    var n := top * 262144 + hi * 4096 + mid * 64 + lo;
    Split64(n, top * 4096 + hi * 64 + mid, lo);
    Split64(top * 4096 + hi * 64 + mid, top * 64 + hi, mid);
    Split64(top * 64 + hi, top, hi);
  }

  lemma EncodeCharDecodeFirst(bs: seq<byte>)
    requires |bs| > 0 && DecodeFirst(bs).Some?
    ensures EncodeChar(DecodeFirst(bs).value.0) == bs[..DecodeFirst(bs).value.1]
  {
    var b0: int := bs[0];
    if 0xC2 <= b0 < 0xE0 {
      EncodeTwo(b0 - 0xC0, bs[1] as int - 0x80);
    } else if 0xE0 <= b0 < 0xF0 {
      EncodeThree(b0 - 0xE0, bs[1] as int - 0x80, bs[2] as int - 0x80);
    } else if 0xF0 <= b0 {
      EncodeFour(b0 - 0xF0, bs[1] as int - 0x80, bs[2] as int - 0x80, bs[3] as int - 0x80);
    }
  }

  /** Every string survives an encode/decode round trip. */
  lemma {:induction false} DecodeEncode(s: string)
    ensures Decode(Encode(s)) == Some(s)
  {
    if s != [] {
      var head := EncodeChar(s[0]);
      DecodeFirstEncodeChar(s[0], Encode(s[1..]));
      assert (head + Encode(s[1..]))[|head|..] == Encode(s[1..]);
      DecodeEncode(s[1..]);
      assert [s[0]] + s[1..] == s;
    }
  }

  /** Decoding accepts only canonical bytes: what it accepts re-encodes to itself. */
  lemma {:induction false} EncodeDecode(bs: seq<byte>)
    requires Decode(bs).Some?
    ensures Encode(Decode(bs).value) == bs
    decreases |bs|
  {
    if bs != [] {
      var (c, k) := DecodeFirst(bs).value;
      EncodeCharDecodeFirst(bs);
      EncodeDecode(bs[k..]);
      var s := Decode(bs).value;
      assert s[0] == c && s[1..] == Decode(bs[k..]).value;
      assert bs == bs[..k] + bs[k..];
    }
  }
}
