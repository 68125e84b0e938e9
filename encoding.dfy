/** How values become the bytes a Redis server stores: UTF-8 for text and
    decimal digits for integers, with the two parsers that read them back
    (Python's `int()` and the server's own strict integer parser). */
module Encoding {
  import opened Wrappers

  type Byte = b: int | 0 <= b < 0x100
  type Bytes = seq<Byte>

  // ---------------------------------------------------------------- UTF-8

  predicate IsContinuation(b: Byte) { 0x80 <= b < 0xC0 }

  /** The six payload bits of a continuation byte. */
  function Low6(b: Byte): int { b as int - 0x80 }

  /** The UTF-8 encoding of one Unicode scalar value. */
  function EncodeChar(c: char): (r: Bytes)
    ensures 1 <= |r| <= 4
    ensures (c as int < 0x80) <==> |r| == 1
  {
    var n := c as int;
    if n < 0x80 then [n]
    else if n < 0x800 then [0xC0 + n / 0x40, 0x80 + n % 0x40]
    else if n < 0x1_0000 then [0xE0 + n / 0x1000, 0x80 + n / 0x40 % 0x40, 0x80 + n % 0x40]
    else [0xF0 + n / 0x4_0000, 0x80 + n / 0x1000 % 0x40, 0x80 + n / 0x40 % 0x40, 0x80 + n % 0x40]
  }

  /** `str.encode('utf-8')`. */
  function Utf8Encode(s: string): Bytes
  {
    if s == [] then [] else EncodeChar(s[0]) + Utf8Encode(s[1..])
  }

  /** Decodes the character at the front of `b` and says how many bytes it
      took, rejecting what a strict decoder rejects: stray continuation bytes,
      truncated sequences, overlong forms, surrogates and values past U+10FFFF. */
  function DecodeFirst(b: Bytes): (r: Option<(char, nat)>)
    requires |b| > 0
    ensures r.Some? ==> 1 <= r.value.1 <= |b| && r.value.1 <= 4
  {
    var b0 := b[0] as int;
    if b0 < 0x80 then Some((b0 as char, 1))
    else if 0xC2 <= b0 < 0xE0 then
      if |b| >= 2 && IsContinuation(b[1]) then
        Some((((b0 - 0xC0) * 0x40 + Low6(b[1])) as char, 2))
      else None
    else if 0xE0 <= b0 < 0xF0 then
      if |b| >= 3 && IsContinuation(b[1]) && IsContinuation(b[2]) then
        var n := (b0 - 0xE0) * 0x1000 + Low6(b[1]) * 0x40 + Low6(b[2]);
        if 0x800 <= n && !(0xD800 <= n < 0xE000) then Some((n as char, 3)) else None
      else None
    else if 0xF0 <= b0 < 0xF5 then
      if |b| >= 4 && IsContinuation(b[1]) && IsContinuation(b[2]) && IsContinuation(b[3]) then
        var n := (b0 - 0xF0) * 0x4_0000 + Low6(b[1]) * 0x1000 + Low6(b[2]) * 0x40 + Low6(b[3]);
        if 0x1_0000 <= n < 0x11_0000 then Some((n as char, 4)) else None
      else None
    else None
  }

  /** `bytes.decode('utf-8')`; None where Python raises UnicodeDecodeError. */
  function Utf8Decode(b: Bytes): Option<string>
    decreases |b|
  {
    if b == [] then Some([])
    else
      match DecodeFirst(b)
      case None => None
      case Some((c, k)) =>
        match Utf8Decode(b[k..])
        case None => None
        case Some(s) => Some([c] + s)
  }

  lemma DecodeFirstOfEncode(c: char, rest: Bytes)
    ensures |EncodeChar(c) + rest| > 0
    ensures DecodeFirst(EncodeChar(c) + rest) == Some((c, |EncodeChar(c)|))
  {
    var n := c as int;
    var b := EncodeChar(c) + rest;
    if n < 0x80 {
    } else if n < 0x800 {
      DecodeTwo(n, b);
    } else if n < 0x1_0000 {
      DecodeThree(n, b);
    } else {
      DecodeFour(n, b);
    }
  }

  /** Quotient and remainder by the three place values of UTF-8's six-bit
      groups, read off a sum of the right shape. */
  lemma DivMod64(n: int, q: int, r: int)
    requires 0 <= r < 0x40 && n == q * 0x40 + r
    ensures n / 0x40 == q && n % 0x40 == r
  {
  }

  lemma DivMod4096(n: int, q: int, r: int)
    requires 0 <= r < 0x1000 && n == q * 0x1000 + r
    ensures n / 0x1000 == q && n % 0x1000 == r
  {
  }

  lemma DivMod262144(n: int, q: int, r: int)
    requires 0 <= r < 0x4_0000 && n == q * 0x4_0000 + r
    ensures n / 0x4_0000 == q && n % 0x4_0000 == r
  {
  }

  lemma DecodeTwo(n: int, b: Bytes)
    requires 0x80 <= n < 0x800 && |b| >= 2
    requires b[0] == 0xC0 + n / 0x40 && b[1] == 0x80 + n % 0x40
    ensures (b[0] as int - 0xC0) * 0x40 + Low6(b[1]) == n
  {
  }

  lemma DecodeThree(n: int, b: Bytes)
    requires 0x800 <= n < 0x1_0000 && |b| >= 3
    requires b[0] == 0xE0 + n / 0x1000 && b[1] == 0x80 + n / 0x40 % 0x40 && b[2] == 0x80 + n % 0x40
    ensures (b[0] as int - 0xE0) * 0x1000 + Low6(b[1]) * 0x40 + Low6(b[2]) == n
  {
    var q1, r0 := n / 0x40, n % 0x40;
    var q2, r1 := q1 / 0x40, q1 % 0x40;
    DivMod4096(n, q2, r1 * 0x40 + r0);
  }

  lemma DecodeFour(n: int, b: Bytes)
    requires 0x1_0000 <= n < 0x11_0000 && |b| >= 4
    requires b[0] == 0xF0 + n / 0x4_0000 && b[1] == 0x80 + n / 0x1000 % 0x40
    requires b[2] == 0x80 + n / 0x40 % 0x40 && b[3] == 0x80 + n % 0x40
    ensures (b[0] as int - 0xF0) * 0x4_0000 + Low6(b[1]) * 0x1000 + Low6(b[2]) * 0x40 + Low6(b[3]) == n
  {
    var q1, r0 := n / 0x40, n % 0x40;
    var q2, r1 := q1 / 0x40, q1 % 0x40;
    var q3, r2 := q2 / 0x40, q2 % 0x40;
    DivMod4096(n, q2, r1 * 0x40 + r0);
    DivMod262144(n, q3, r2 * 0x1000 + r1 * 0x40 + r0);
  }

  lemma EncodeOfDecodeFirst(b: Bytes)
    requires |b| > 0 && DecodeFirst(b).Some?
    ensures EncodeChar(DecodeFirst(b).value.0) == b[..DecodeFirst(b).value.1]
  {
    var b0 := b[0] as int;
    if b0 < 0x80 {
    } else if b0 < 0xE0 {
      EncodeTwo(b0, Low6(b[1]));
    } else if b0 < 0xF0 {
      EncodeThree(b0, Low6(b[1]), Low6(b[2]));
    } else {
      EncodeFour(b0, Low6(b[1]), Low6(b[2]), Low6(b[3]));
    }
  }

  lemma EncodeTwo(b0: int, x1: int)
    requires 0 <= x1 < 0x40
    ensures ((b0 - 0xC0) * 0x40 + x1) / 0x40 == b0 - 0xC0
    ensures ((b0 - 0xC0) * 0x40 + x1) % 0x40 == x1
  {
    DivMod64((b0 - 0xC0) * 0x40 + x1, b0 - 0xC0, x1);
  }

  lemma EncodeThree(b0: int, x1: int, x2: int)
    requires 0 <= x1 < 0x40 && 0 <= x2 < 0x40
    ensures var n := (b0 - 0xE0) * 0x1000 + x1 * 0x40 + x2;
      n / 0x1000 == b0 - 0xE0 && n / 0x40 % 0x40 == x1 && n % 0x40 == x2
  {
    var a := b0 - 0xE0;
    var n := a * 0x1000 + x1 * 0x40 + x2;
    DivMod4096(n, a, x1 * 0x40 + x2);
    DivMod64(n, a * 0x40 + x1, x2);
    DivMod64(a * 0x40 + x1, a, x1);
  }

  lemma EncodeFour(b0: int, x1: int, x2: int, x3: int)
    requires 0 <= x1 < 0x40 && 0 <= x2 < 0x40 && 0 <= x3 < 0x40
    ensures var n := (b0 - 0xF0) * 0x4_0000 + x1 * 0x1000 + x2 * 0x40 + x3;
      n / 0x4_0000 == b0 - 0xF0 && n / 0x1000 % 0x40 == x1 && n / 0x40 % 0x40 == x2 && n % 0x40 == x3
  {
    var a := b0 - 0xF0;
    var n := a * 0x4_0000 + x1 * 0x1000 + x2 * 0x40 + x3;
    DivMod262144(n, a, x1 * 0x1000 + x2 * 0x40 + x3);
    DivMod4096(n, a * 0x40 + x1, x2 * 0x40 + x3);
    DivMod64(a * 0x40 + x1, a, x1);
    DivMod64(n, a * 0x1000 + x1 * 0x40 + x2, x3);
    DivMod64(a * 0x1000 + x1 * 0x40 + x2, a * 0x40 + x1, x2);
  }

  /** Decoding what was encoded gives the text back. */
  lemma {:induction false} Utf8RoundTrip(s: string)
    ensures Utf8Decode(Utf8Encode(s)) == Some(s)
  {
    if s != [] {
      var head, rest := EncodeChar(s[0]), Utf8Encode(s[1..]);
      assert Utf8Encode(s) == head + rest;
      DecodeFirstOfEncode(s[0], rest);
      assert (head + rest)[|head|..] == rest;
      Utf8RoundTrip(s[1..]);
      assert [s[0]] + s[1..] == s;
    }
  }

  /** Whatever decodes is the encoding of what it decodes to: a byte string has
      at most one reading as UTF-8 text. */
  lemma {:induction false} Utf8Canonical(b: Bytes)
    requires Utf8Decode(b).Some?
    ensures Utf8Encode(Utf8Decode(b).value) == b
    decreases |b|
  {
    if b != [] {
      var c, k := DecodeFirst(b).value.0, DecodeFirst(b).value.1;
      EncodeOfDecodeFirst(b);
      Utf8Canonical(b[k..]);
      var s := Utf8Decode(b[k..]).value;
      assert Utf8Decode(b).value == [c] + s;
      assert ([c] + s)[1..] == s;
      assert b[..k] + b[k..] == b;
    }
  }

  lemma Utf8DecodeIff(b: Bytes, s: string)
    ensures Utf8Decode(b) == Some(s) <==> b == Utf8Encode(s)
  {
    if Utf8Decode(b) == Some(s) { Utf8Canonical(b); }
    if b == Utf8Encode(s) { Utf8RoundTrip(s); }
  }

  // -------------------------------------------------------------- decimal

  const Minus: Byte := 0x2D
  const Plus: Byte := 0x2B

  predicate IsDigit(b: Byte) { 0x30 <= b <= 0x39 }

  predicate AllDigits(b: Bytes) { forall i :: 0 <= i < |b| ==> IsDigit(b[i]) }

  /** The decimal digits of `n`, without leading zeros. */
  function Digits(n: nat): (r: Bytes)
    ensures |r| > 0 && AllDigits(r)
    ensures |r| > 1 ==> r[0] != 0x30
  {
    if n < 10 then [0x30 + n] else Digits(n / 10) + [0x30 + n % 10]
  }

  /** The number a run of decimal digits denotes. */
  function DigitsValue(b: Bytes): nat
    requires AllDigits(b)
    decreases |b|
  {
    if b == [] then 0 else DigitsValue(b[..|b| - 1]) * 10 + (b[|b| - 1] - 0x30)
  }

  lemma {:induction false} DigitsValueOfDigits(n: nat)
    ensures DigitsValue(Digits(n)) == n
  {
    if n >= 10 {
      var d := Digits(n);
      assert d[..|d| - 1] == Digits(n / 10);
      DigitsValueOfDigits(n / 10);
    }
  }

  /** How Python renders an integer (`repr`), as the client sends it to Redis,
      and how Redis writes a counter back. */
  function DecimalEncode(n: int): (r: Bytes)
    ensures |r| > 0 && (n < 0 <==> r[0] == Minus)
  {
    if n < 0 then [Minus] + Digits(-n) else Digits(n)
  }

  /** Python's `int()` applied to bytes: an optional sign followed by at least
      one decimal digit; None where Python raises ValueError. */
  function ParseDecimal(b: Bytes): Option<int>
  {
    if |b| > 1 && b[0] == Minus && AllDigits(b[1..]) then Some(-(DigitsValue(b[1..]) as int))
    else if |b| > 1 && b[0] == Plus && AllDigits(b[1..]) then Some(DigitsValue(b[1..]))
    else if |b| > 0 && AllDigits(b) then Some(DigitsValue(b))
    else None
  }

  lemma DecimalRoundTrip(n: int)
    ensures ParseDecimal(DecimalEncode(n)) == Some(n)
  {
    if n < 0 {
      assert DecimalEncode(n)[1..] == Digits(-n);
      DigitsValueOfDigits(-n);
    } else {
      DigitsValueOfDigits(n);
    }
  }

  const MinInt64: int := -0x8000_0000_0000_0000
  const MaxInt64: int := 0x7FFF_FFFF_FFFF_FFFF

  predicate InInt64(n: int) { MinInt64 <= n <= MaxInt64 }

  /** The server's integer parser (behind INCR): it accepts exactly the
      canonical decimal text of a 64-bit signed integer, with no sign but a
      leading minus, no leading zeros, no "-0" and nothing around the digits. */
  function RedisInt(b: Bytes): (r: Option<int>)
    ensures r.Some? ==> InInt64(r.value) && b == DecimalEncode(r.value)
  {
    match ParseDecimal(b)
    case Some(n) => if InInt64(n) && DecimalEncode(n) == b then Some(n) else None
    case None => None
  }

  lemma RedisIntIff(b: Bytes, n: int)
    ensures RedisInt(b) == Some(n) <==> InInt64(n) && b == DecimalEncode(n)
  {
    DecimalRoundTrip(n);
  }
}
