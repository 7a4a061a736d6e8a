/** UTF-8 (RFC 3629) over Unicode scalar values.

    A Rust `String`, a decoded Python `str` and a Dafny `string` are all
    sequences of scalar values, so `Encode` is what `as_bytes` / `.encode("utf-8")`
    produce and `Decode` is what `String::from_utf8` / `.decode("utf-8")` accept. */
module Utf8 {
  import opened Wrappers

  type Byte = b: int | 0 <= b < 256

  type Bytes = seq<Byte>

  function EncodeChar(c: char): (r: Bytes)
    ensures 1 <= |r| <= 4
  {
    var n := c as int;
    var m := n / 64;
    if n < 0x80 then [n]
    else if n < 0x800 then [0xC0 + m, 0x80 + n % 64]
    else if n < 0x10000 then [0xE0 + m / 64, 0x80 + m % 64, 0x80 + n % 64]
    else [0xF0 + m / 64 / 64, 0x80 + m / 64 % 64, 0x80 + m % 64, 0x80 + n % 64]
  }

  function Encode(s: string): (r: Bytes)
  {
    if s == "" then [] else EncodeChar(s[0]) + Encode(s[1..])
  }

  predicate IsScalar(n: int) {
    0 <= n < 0xD800 || 0xE000 <= n < 0x110000
  }

  predicate Continuation(b: Byte) {
    0x80 <= b < 0xC0
  }

  /** Append the six payload bits of a continuation byte. */
  function Shift(high: int, b: Byte): int {
    high * 64 + (b - 0x80)
  }

  /** `n` as a character when it is in the range a sequence of this length may
      carry: not over-long, not a surrogate, not above U+10FFFF. */
  function Scalar(n: int, least: nat, rest: Bytes): (r: Option<(char, Bytes)>)
    ensures r.Some? ==> r.value.1 == rest && r.value.0 as int == n >= least
  {
    if least <= n && IsScalar(n) then Some((n as char, rest)) else None
  }

  /** The scalar value at the front of `b`, if `b` starts with a well-formed
      sequence. */
  function DecodeChar(b: Bytes): (r: Option<(char, Bytes)>)
    ensures r.Some? ==> |r.value.1| < |b|
  {
    if b == [] then None
    else if b[0] < 0x80 then Scalar(b[0], 0, b[1..])
    else if 0xC0 <= b[0] < 0xE0 && |b| >= 2 && Continuation(b[1]) then
      Scalar(Shift(b[0] - 0xC0, b[1]), 0x80, b[2..])
    else if 0xE0 <= b[0] < 0xF0 && |b| >= 3 && Continuation(b[1]) && Continuation(b[2]) then
      Scalar(Shift(Shift(b[0] - 0xE0, b[1]), b[2]), 0x800, b[3..])
    else if 0xF0 <= b[0] < 0xF8 && |b| >= 4 && Continuation(b[1]) && Continuation(b[2]) && Continuation(b[3]) then
      Scalar(Shift(Shift(Shift(b[0] - 0xF0, b[1]), b[2]), b[3]), 0x10000, b[4..])
    else None
  }

  function Decode(b: Bytes): (r: Option<string>)
    decreases |b|
  {
    if b == [] then Some("")
    else
      match DecodeChar(b)
      case None => None
      case Some(front) =>
        match Decode(front.1)
        case None => None
        case Some(tail) => Some([front.0] + tail)
  }

  lemma ShiftInverse(n: nat)
    ensures 0x80 <= 0x80 + n % 64 < 0xC0
    ensures Shift(n / 64, 0x80 + n % 64) == n
  {
  }

  lemma ShiftUnique(high: nat, b: Byte)
    requires Continuation(b)
    ensures Shift(high, b) / 64 == high && 0x80 + Shift(high, b) % 64 == b
  {
  }

  lemma DecodeEncodedChar(c: char, rest: Bytes)
    ensures DecodeChar(EncodeChar(c) + rest) == Some((c, rest))
  {
    var n := c as int;
    var x := EncodeChar(c);
    var b := x + rest;
    assert b[|x|..] == rest;
    ShiftInverse(n);
    ShiftInverse(n / 64);
    ShiftInverse(n / 64 / 64);
  }

  lemma EncodeDecodedChar(b: Bytes)
    requires DecodeChar(b).Some?
    ensures EncodeChar(DecodeChar(b).value.0) + DecodeChar(b).value.1 == b
  {
    if 0xC0 <= b[0] < 0xE0 {
      ShiftUnique(b[0] - 0xC0, b[1]);
    } else if 0xE0 <= b[0] < 0xF0 {
      ShiftUnique(b[0] - 0xE0, b[1]);
      ShiftUnique(Shift(b[0] - 0xE0, b[1]), b[2]);
    } else if 0xF0 <= b[0] {
      ShiftUnique(b[0] - 0xF0, b[1]);
      ShiftUnique(Shift(b[0] - 0xF0, b[1]), b[2]);
      ShiftUnique(Shift(Shift(b[0] - 0xF0, b[1]), b[2]), b[3]);
    }
  }

  /** Decoding inverts encoding, and nothing but an encoding decodes: the
      reader's `from_utf8` accepts exactly the writer's `as_bytes`. */
  lemma {:induction false} DecodeInvertsEncode(s: string)
    ensures Decode(Encode(s)) == Some(s)
  {
    if s != "" {
      DecodeEncodedChar(s[0], Encode(s[1..]));
      DecodeInvertsEncode(s[1..]);
      assert [s[0]] + s[1..] == s;
    }
  }

  lemma {:induction false} OnlyEncodingsDecode(b: Bytes)
    requires Decode(b).Some?
    ensures Encode(Decode(b).value) == b
    decreases |b|
  {
    if b != [] {
      EncodeDecodedChar(b);
      OnlyEncodingsDecode(DecodeChar(b).value.1);
      var s := Decode(b).value;
      assert s[1..] == Decode(DecodeChar(b).value.1).value;
    }
  }

  // ---------------------------------------------------------------------
  // Order preservation
  // ---------------------------------------------------------------------

  /** Lexicographic order on bytes: how Rust compares `String` keys. */
  predicate BytesBelow(a: Bytes, b: Bytes) {
    if b == [] then false
    else if a == [] then true
    else if a[0] != b[0] then a[0] < b[0]
    else BytesBelow(a[1..], b[1..])
  }

  /** Lexicographic order on code points: how Python compares `str` keys. */
  predicate CodePointsBelow(a: string, b: string) {
    if b == "" then false
    else if a == "" then true
    else if a[0] != b[0] then a[0] < b[0]
    else CodePointsBelow(a[1..], b[1..])
  }

  lemma {:induction false} CommonPrefix(p: Bytes, a: Bytes, b: Bytes)
    ensures BytesBelow(p + a, p + b) == BytesBelow(a, b)
  {
    if p == [] {
      assert p + a == a && p + b == b;
    } else {
      assert (p + a)[1..] == p[1..] + a && (p + b)[1..] == p[1..] + b;
      CommonPrefix(p[1..], a, b);
    }
  }

  /** Smaller numbers have a smaller quotient, or the same quotient and a
      smaller remainder. */
  lemma SixBitOrder(m: nat, n: nat)
    requires m < n
    ensures m / 64 < n / 64 || (m / 64 == n / 64 && m % 64 < n % 64)
  {
  }

  ghost predicate FirstDiffersAt(x: Bytes, y: Bytes, k: nat) {
    k < |x| && k < |y| && x[..k] == y[..k] && x[k] < y[k]
  }

  lemma FirstDifferenceInThree(c: char, d: char) returns (k: nat)
    requires c < d && |EncodeChar(c)| == |EncodeChar(d)| == 3
    ensures FirstDiffersAt(EncodeChar(c), EncodeChar(d), k)
  {
    var m, n := c as int, d as int;
    SixBitOrder(m, n);
    if m / 64 == n / 64 {
      k := 2;
    } else {
      SixBitOrder(m / 64, n / 64);
      k := if m / 64 / 64 == n / 64 / 64 then 1 else 0;
    }
  }

  lemma FirstDifferenceInFour(c: char, d: char) returns (k: nat)
    requires c < d && |EncodeChar(c)| == |EncodeChar(d)| == 4
    ensures FirstDiffersAt(EncodeChar(c), EncodeChar(d), k)
  {
    var m, n := c as int, d as int;
    SixBitOrder(m, n);
    if m / 64 == n / 64 {
      k := 3;
    } else {
      SixBitOrder(m / 64, n / 64);
      if m / 64 / 64 == n / 64 / 64 {
        k := 2;
      } else {
        SixBitOrder(m / 64 / 64, n / 64 / 64);
        k := if m / 64 / 64 / 64 == n / 64 / 64 / 64 then 1 else 0;
      }
    }
  }

  /** Where two scalar values first differ in their encodings, the smaller
      value has the smaller byte. */
  lemma FirstDifferingByte(c: char, d: char) returns (k: nat)
    requires c < d
    ensures FirstDiffersAt(EncodeChar(c), EncodeChar(d), k)
  {
    if |EncodeChar(c)| != |EncodeChar(d)| || |EncodeChar(c)| == 1 {
      k := 0;
    } else if |EncodeChar(c)| == 2 {
      SixBitOrder(c as int, d as int);
      k := if c as int / 64 == d as int / 64 then 1 else 0;
    } else if |EncodeChar(c)| == 3 {
      k := FirstDifferenceInThree(c, d);
    } else {
      k := FirstDifferenceInFour(c, d);
    }
  }

  lemma SmallerCharIsBelow(c: char, d: char, a: Bytes, b: Bytes)
    requires c < d
    ensures BytesBelow(EncodeChar(c) + a, EncodeChar(d) + b)
    ensures !BytesBelow(EncodeChar(d) + b, EncodeChar(c) + a)
  {
    var k := FirstDifferingByte(c, d);
    var x, y := EncodeChar(c), EncodeChar(d);
    assert x + a == x[..k] + (x[k..] + a);
    assert y + b == x[..k] + (y[k..] + b);
    CommonPrefix(x[..k], x[k..] + a, y[k..] + b);
    CommonPrefix(x[..k], y[k..] + b, x[k..] + a);
  }

  /** UTF-8 preserves order (RFC 3629 section 1): the byte order Rust sorts
      object keys by and the code-point order Python sorts them by agree on
      every pair of keys. */
  lemma {:induction false} EncodingPreservesOrder(a: string, b: string)
    ensures BytesBelow(Encode(a), Encode(b)) == CodePointsBelow(a, b)
  {
    if a == "" || b == "" {
    } else if a[0] < b[0] {
      SmallerCharIsBelow(a[0], b[0], Encode(a[1..]), Encode(b[1..]));
    } else if b[0] < a[0] {
      SmallerCharIsBelow(b[0], a[0], Encode(b[1..]), Encode(a[1..]));
    } else {
      CommonPrefix(EncodeChar(a[0]), Encode(a[1..]), Encode(b[1..]));
      EncodingPreservesOrder(a[1..], b[1..]);
    }
  }
}
