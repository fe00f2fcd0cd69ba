/** UTF-8 as RFC 3629 section 3 defines it and Go's range loop decodes it: an
    invalid sequence yields the replacement character and consumes one byte. */
module Utf8 {
  type Byte = b: int | 0 <= b < 256

  type Bytes = seq<Byte>

  /** A Unicode scalar value. */
  type Rune = r: int | 0 <= r < 0xD800 || 0xE000 <= r < 0x110000

  const RUNE_ERROR: Rune := 0xFFFD

  predicate IsContinuation(b: Byte) { 0x80 <= b < 0xC0 }

  predicate RuneStart(b: Byte) { !IsContinuation(b) }

  datatype Decoded = Decoded(rune: Rune, width: nat)

  const INVALID := Decoded(RUNE_ERROR, 1)

  function Encode(r: Rune): (s: seq<Byte>)
    ensures 1 <= |s| <= 4
  {
    if r < 0x80 then [r]
    else if r < 0x800 then [0xC0 + r / 64, 0x80 + r % 64]
    else if r < 0x10000 then [0xE0 + r / 4096, 0x80 + r / 64 % 64, 0x80 + r % 64]
    else [0xF0 + r / 262144, 0x80 + r / 4096 % 64, 0x80 + r / 64 % 64, 0x80 + r % 64]
  }

  /** The second byte a lead byte accepts: overlong forms, surrogates and values past
      U+10FFFF are ruled out there. */
  predicate SecondOk(lead: Byte, b: Byte) {
    if lead == 0xE0 then 0xA0 <= b < 0xC0
    else if lead == 0xED then 0x80 <= b < 0xA0
    else if lead == 0xF0 then 0x90 <= b < 0xC0
    else if lead == 0xF4 then 0x80 <= b < 0x90
    else IsContinuation(b)
  }

  function Decode(s: seq<Byte>): (d: Decoded)
    requires s != []
    ensures 1 <= d.width <= |s|
  {
    var b0: int := s[0];
    if b0 < 0x80 then Decoded(b0, 1)
    else if b0 < 0xC2 || b0 >= 0xF5 then INVALID
    else if |s| < 2 || !SecondOk(b0, s[1]) then INVALID
    else if b0 < 0xE0 then Decoded((b0 - 0xC0) * 64 + (s[1] as int - 0x80), 2)
    else if |s| < 3 || !IsContinuation(s[2]) then INVALID
    else if b0 < 0xF0 then Decoded((b0 - 0xE0) * 4096 + (s[1] as int - 0x80) * 64 + (s[2] as int - 0x80), 3)
    else if |s| < 4 || !IsContinuation(s[3]) then INVALID
    else
      var high := (b0 - 0xF0) * 262144 + (s[1] as int - 0x80) * 4096;
      Decoded(high + (s[2] as int - 0x80) * 64 + (s[3] as int - 0x80), 4)
  }

  /** The head of s is a whole rune, encoded the one way RFC 3629 allows. */
  predicate WholeRune(s: seq<Byte>)
    requires s != []
  {
    var d := Decode(s);
    s[..d.width] == Encode(d.rune)
  }

  lemma DecodeThree(r: Rune, rest: seq<Byte>)
    requires 0x800 <= r < 0x10000
    ensures Decode(Encode(r) + rest) == Decoded(r, 3)
  {
    var s := Encode(r) + rest;
    assert s[0] == 0xE0 + r / 4096 && s[1] == 0x80 + r / 64 % 64 && s[2] == 0x80 + r % 64;
    assert r == r / 4096 * 4096 + r / 64 % 64 * 64 + r % 64;
  }

  /** The digits of r in base 64. */
  lemma Digits(r: nat)
    ensures r == r / 262144 * 262144 + r / 4096 % 64 * 4096 + r / 64 % 64 * 64 + r % 64
  {
    var q := r / 64;
    assert r / 4096 == q / 64 && r / 262144 == q / 64 / 64;
    assert q == q / 64 * 64 + q % 64;
    assert q / 64 == q / 64 / 64 * 64 + q / 64 % 64;
  }

  /** The first two digits of a rune past U+FFFF. */
  lemma LeadingDigits(r: nat)
    requires 0x10000 <= r < 0x110000
    ensures r / 262144 <= 4
    ensures r / 262144 == 0 ==> r / 4096 % 64 >= 16
    ensures r / 262144 == 4 ==> r / 4096 % 64 < 16
  {
    var p := r / 4096;
    assert 16 <= p < 272 && r / 262144 == p / 64;
  }

  lemma DecodeFour(r: Rune, rest: seq<Byte>)
    requires 0x10000 <= r
    ensures Decode(Encode(r) + rest) == Decoded(r, 4)
  {
    var s := Encode(r) + rest;
    Digits(r);
    LeadingDigits(r);
    assert s[0] == 0xF0 + r / 262144 && s[1] == 0x80 + r / 4096 % 64;
    assert s[2] == 0x80 + r / 64 % 64 && s[3] == 0x80 + r % 64;
  }

  /** Encoding then decoding gives the rune back, whatever follows. */
  lemma DecodeEncode(r: Rune, rest: seq<Byte>)
    ensures Decode(Encode(r) + rest) == Decoded(r, |Encode(r)|)
    ensures WholeRune(Encode(r) + rest)
  {
    var s := Encode(r) + rest;
    assert s[..|Encode(r)|] == Encode(r);
    if r < 0x80 {
      assert s[0] == r;
    } else if r < 0x800 {
      assert s[0] == 0xC0 + r / 64 && s[1] == 0x80 + r % 64;
    } else if r < 0x10000 {
      DecodeThree(r, rest);
    } else {
      DecodeFour(r, rest);
    }
  }

  lemma Unpack2(x: int, a: int)
    requires 0 <= a < 64
    ensures (x * 64 + a) / 64 == x && (x * 64 + a) % 64 == a
  {
  }

  lemma Exact2(b0: Byte, b1: Byte)
    requires 0xC2 <= b0 < 0xE0 && IsContinuation(b1)
    ensures Encode((b0 as int - 0xC0) * 64 + (b1 as int - 0x80)) == [b0, b1]
  {
    Unpack2(b0 - 0xC0, b1 - 0x80);
  }

  lemma Exact3(b0: Byte, b1: Byte, b2: Byte)
    requires 0xE0 <= b0 < 0xF0 && SecondOk(b0, b1) && IsContinuation(b2)
    ensures Encode((b0 as int - 0xE0) * 4096 + (b1 as int - 0x80) * 64 + (b2 as int - 0x80)) == [b0, b1, b2]
  {
    var x, y, z := b0 as int - 0xE0, b1 as int - 0x80, b2 as int - 0x80;
    var r := x * 4096 + y * 64 + z;
    Unpack2(x * 64 + y, z);
    Unpack2(x, y);
    assert r / 64 == x * 64 + y && r / 4096 == x;
  }

  lemma Exact4(b0: Byte, b1: Byte, b2: Byte, b3: Byte)
    requires 0xF0 <= b0 < 0xF5 && SecondOk(b0, b1) && IsContinuation(b2) && IsContinuation(b3)
    ensures Encode((b0 as int - 0xF0) * 262144 + (b1 as int - 0x80) * 4096 + (b2 as int - 0x80) * 64
                   + (b3 as int - 0x80))
         == [b0, b1, b2, b3]
  {
    var w, x, y, z := b0 as int - 0xF0, b1 as int - 0x80, b2 as int - 0x80, b3 as int - 0x80;
    var r := w * 262144 + x * 4096 + y * 64 + z;
    Unpack2(w * 4096 + x * 64 + y, z);
    Unpack2(w * 64 + x, y);
    Unpack2(w, x);
    assert r / 64 == w * 4096 + x * 64 + y && r / 4096 == w * 64 + x && r / 262144 == w;
  }

  /** A decoded rune is either the replacement for one bad byte, or exactly the bytes it came from. */
  lemma DecodeIsExact(s: seq<Byte>)
    requires s != []
    ensures WholeRune(s) || Decode(s) == INVALID
    ensures WholeRune(s) && Decode(s).width > 1 ==>
              s[0] >= 0xC0 && forall i :: 1 <= i < Decode(s).width ==> IsContinuation(s[i])
  {
    var d := Decode(s);
    if d.width == 1 {
      assert s[..1] == [s[0]];
    } else if d.width == 2 {
      Exact2(s[0], s[1]);
      assert s[..2] == [s[0], s[1]];
    } else if d.width == 3 {
      Exact3(s[0], s[1], s[2]);
      assert s[..3] == [s[0], s[1], s[2]];
    } else {
      Exact4(s[0], s[1], s[2], s[3]);
      assert s[..4] == [s[0], s[1], s[2], s[3]];
    }
  }

  /** Well-formed UTF-8. */
  predicate Valid(s: seq<Byte>)
    decreases |s|
  {
    s == [] || (WholeRune(s) && Valid(s[Decode(s).width..]))
  }

  function EncodeAll(rs: seq<Rune>): seq<Byte> {
    if rs == [] then [] else Encode(rs[0]) + EncodeAll(rs[1..])
  }

  /** A rune's first byte starts it, the others continue it. */
  lemma EncodeShape(r: Rune)
    ensures RuneStart(Encode(r)[0]) && (|Encode(r)| == 1 <==> Encode(r)[0] < 0x80)
    ensures forall i :: 1 <= i < |Encode(r)| ==> IsContinuation(Encode(r)[i])
  {
  }

  lemma {:induction false} EncodeAllConcat(a: seq<Rune>, b: seq<Rune>)
    ensures EncodeAll(a + b) == EncodeAll(a) + EncodeAll(b)
    decreases |a|
  {
    if a == [] {
      assert a + b == b;
    } else {
      EncodeAllConcat(a[1..], b);
      assert (a + b)[1..] == a[1..] + b;
    }
  }

  /** What is encoded is well-formed. */
  lemma {:induction false} EncodeAllIsValid(rs: seq<Rune>)
    ensures Valid(EncodeAll(rs))
    decreases |rs|
  {
    if rs != [] {
      var rest := EncodeAll(rs[1..]);
      EncodeAllIsValid(rs[1..]);
      DecodeEncode(rs[0], rest);
      assert (Encode(rs[0]) + rest)[|Encode(rs[0])|..] == rest;
    }
  }

  predicate AtBoundary(s: seq<Byte>, k: nat)
    requires k <= |s|
  {
    k == |s| || RuneStart(s[k])
  }

  /** A cut at the start of a rune falls between two runes. */
  lemma {:induction false} CutBetween(rs: seq<Rune>, k: nat) returns (j: nat)
    requires k <= |EncodeAll(rs)| && AtBoundary(EncodeAll(rs), k)
    ensures j <= |rs|
    ensures EncodeAll(rs)[..k] == EncodeAll(rs[..j]) && EncodeAll(rs)[k..] == EncodeAll(rs[j..])
    decreases |rs|
  {
    if k == 0 {
      j := 0;
      assert rs[0..] == rs;
    } else {
      var head, rest := Encode(rs[0]), EncodeAll(rs[1..]);
      EncodeShape(rs[0]);
      assert k >= |head|;
      var i := CutBetween(rs[1..], k - |head|);
      j := i + 1;
      assert rs[..j][1..] == rs[1..][..i] && rs[1..][i..] == rs[j..];
      assert EncodeAll(rs)[..k] == head + rest[..k - |head|];
      assert EncodeAll(rs)[k..] == rest[k - |head|..];
    }
  }

  /** Whatever follows an ASCII byte starts a rune. */
  lemma {:induction false} AfterAscii(rs: seq<Rune>, k: nat)
    requires 0 < k <= |EncodeAll(rs)| && EncodeAll(rs)[k - 1] < 0x80
    ensures AtBoundary(EncodeAll(rs), k)
    decreases |rs|
  {
    var head, rest := Encode(rs[0]), EncodeAll(rs[1..]);
    EncodeShape(rs[0]);
    assert k >= |head|;
    if k > |head| {
      AfterAscii(rs[1..], k - |head|);
    } else if rs[1..] != [] {
      EncodeShape(rs[1]);
    }
  }
}
