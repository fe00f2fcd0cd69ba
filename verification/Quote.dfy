/** The rendering of %q: Go's strconv.Quote. Which runes are printable is Unicode's affair
    and given. */
module Quote {
  import opened Utf8
  import opened Prose

  type Printable = Rune -> bool

  const QUOTE: Byte := 34
  const BACKSLASH: Byte := 92

  function HexDigit(d: nat): (b: Byte)
    requires d < 16
    ensures 48 <= b < 58 || 97 <= b < 103
  {
    if d < 10 then 48 + d else 87 + d
  }

  function Hex(v: nat, digits: nat): (b: Bytes)
    ensures |b| == digits && forall i :: 0 <= i < digits ==> 48 <= b[i] < 58 || 97 <= b[i] < 103
  {
    if digits == 0 then [] else Hex(v / 16, digits - 1) + [HexDigit(v % 16)]
  }

  /** The letter after the backslash, where there is one. */
  function Letter(r: Rune): Byte {
    if r == 7 then 97 else if r == 8 then 98 else if r == 12 then 102 else if r == 10 then 110
    else if r == 13 then 114 else if r == 9 then 116 else if r == 11 then 118 else 0
  }

  function Escaped(r: Rune, isPrint: Printable): Bytes {
    if r == QUOTE as int || r == BACKSLASH as int then [BACKSLASH, r]
    else if isPrint(r) then Encode(r)
    else if Letter(r) != 0 then [BACKSLASH, Letter(r)]
    else if r < 0x20 || r == 0x7F then [BACKSLASH, 120] + Hex(r, 2)
    else if r < 0x10000 then [BACKSLASH, 117] + Hex(r, 4)
    else [BACKSLASH, 85] + Hex(r, 8)
  }

  /** What the head of a text becomes. */
  function Unit(s: Bytes, isPrint: Printable): Bytes
    requires s != []
  {
    if Decode(s) == INVALID then [BACKSLASH, 120] + Hex(s[0], 2) else Escaped(Decode(s).rune, isPrint)
  }

  function Inside(s: Bytes, isPrint: Printable): Bytes
    decreases |s|
  {
    if s == [] then [] else Unit(s, isPrint) + Inside(s[Decode(s).width..], isPrint)
  }

  function Quoted(s: Bytes, isPrint: Printable): Bytes { [QUOTE] + Inside(s, isPrint) + [QUOTE] }

  lemma EscapedKeepsPlain(r: Rune, isPrint: Printable)
    requires r != LT as int
    ensures LT !in Escaped(r, isPrint)
  {
    EncodesMark(r);
  }

  /** An ASCII rune decodes from its own byte only. */
  lemma AsciiIsItself(s: Bytes)
    requires s != []
    ensures Decode(s).rune < 0x80 ==> s[0] as int == Decode(s).rune
  {
  }

  /** Quoting brings in no '<' of its own. */
  lemma {:induction false} InsideKeepsPlain(s: Bytes, isPrint: Printable)
    requires LT !in s
    ensures LT !in Inside(s, isPrint)
    decreases |s|
  {
    if s != [] {
      var d := Decode(s);
      AsciiIsItself(s);
      InsideKeepsPlain(s[d.width..], isPrint);
      if d != INVALID { EscapedKeepsPlain(d.rune, isPrint); }
    }
  }

  lemma QuotedKeepsPlain(s: Bytes, isPrint: Printable)
    requires LT !in s
    ensures LT !in Quoted(s, isPrint)
  {
    InsideKeepsPlain(s, isPrint);
  }

  /** Nor a newline, where newlines do not print. */
  lemma {:induction false} InsideIsOneLine(s: Bytes, isPrint: Printable)
    requires !isPrint(10)
    ensures 10 !in Inside(s, isPrint)
    decreases |s|
  {
    if s != [] {
      var d := Decode(s);
      InsideIsOneLine(s[d.width..], isPrint);
      if d != INVALID { EscapedIsOneLine(d.rune, isPrint); }
    }
  }

  lemma EscapedIsOneLine(r: Rune, isPrint: Printable)
    requires !isPrint(10)
    ensures 10 !in Escaped(r, isPrint)
  {
    EncodeShape(r);
    if r != 10 {
      forall i | 0 <= i < |Encode(r)| ensures Encode(r)[i] != 10 {}
    }
  }

  lemma QuotedIsOneLine(s: Bytes, isPrint: Printable)
    requires !isPrint(10)
    ensures 10 !in Quoted(s, isPrint)
  {
    InsideIsOneLine(s, isPrint);
  }

  // ---- Reading it back ----

  function Digit(b: Byte): int { if 97 <= b then b - 87 else b as int - 48 }

  function Unhex(b: Bytes): int { if b == [] then 0 else 16 * Unhex(b[..|b| - 1]) + Digit(b[|b| - 1]) }

  function Pow16(n: nat): nat { if n == 0 then 1 else 16 * Pow16(n - 1) }

  lemma {:induction false} HexReadsBack(v: nat, n: nat)
    requires v < Pow16(n)
    ensures Unhex(Hex(v, n)) == v
    decreases n
  {
    if n > 0 {
      HexReadsBack(v / 16, n - 1);
      assert Hex(v, n)[..n - 1] == Hex(v / 16, n - 1);
    } else {
      assert Pow16(0) == 1;
    }
  }

  lemma Pows()
    ensures Pow16(2) == 256 && Pow16(4) == 65536 && Pow16(8) == 4294967296
  {
    assert Pow16(2) == 16 * Pow16(1) && Pow16(1) == 16 * Pow16(0);
    assert Pow16(4) == 16 * Pow16(3) && Pow16(3) == 16 * Pow16(2);
    assert Pow16(6) == 16 * Pow16(5) && Pow16(5) == 16 * Pow16(4);
    assert Pow16(8) == 16 * Pow16(7) && Pow16(7) == 16 * Pow16(6);
  }

  /** The rune a letter after a backslash stands for. */
  function Meant(letter: Byte): Bytes {
    if letter == 97 then [7] else if letter == 98 then [8] else if letter == 102 then [12]
    else if letter == 110 then [10] else if letter == 114 then [13] else if letter == 116 then [9]
    else if letter == 118 then [11] else [letter]
  }

  function EncodeIf(v: int): Bytes { if 0 <= v < 0xD800 || 0xE000 <= v < 0x110000 then Encode(v) else [] }

  /** How long the escape after a backslash is, and what it stands for. */
  function EscapeLength(b: Bytes): nat
    requires b != []
  {
    if b[0] == 120 then 3 else if b[0] == 117 then 5 else if b[0] == 85 then 9 else 1
  }

  function EscapeMeans(b: Bytes): Bytes
    requires b != [] && EscapeLength(b) <= |b|
  {
    if b[0] == 120 then (if 0 <= Unhex(b[1..3]) < 256 then [Unhex(b[1..3])] else [])
    else if b[0] == 117 then EncodeIf(Unhex(b[1..5]))
    else if b[0] == 85 then EncodeIf(Unhex(b[1..9]))
    else Meant(b[0])
  }

  datatype Scanned = Scanned(text: Bytes, rest: Bytes)

  /** Reading quoted text up to the quotation mark that ends it. */
  function Scan(b: Bytes): Scanned
    decreases |b|
  {
    if b == [] then Scanned([], [])
    else if b[0] == QUOTE then Scanned([], b[1..])
    else if b[0] != BACKSLASH then
      var more := Scan(b[1..]);
      more.(text := [b[0]] + more.text)
    else if |b| < 2 || 1 + EscapeLength(b[1..]) > |b| then Scanned([], [])
    else
      var more := Scan(b[1 + EscapeLength(b[1..])..]);
      more.(text := EscapeMeans(b[1..]) + more.text)
  }

  lemma {:induction false} ScanCopies(e: Bytes, rest: Bytes)
    requires QUOTE !in e && BACKSLASH !in e
    ensures Scan(e + rest) == Scan(rest).(text := e + Scan(rest).text)
    decreases |e|
  {
    hide EscapeMeans, EscapeLength;
    if e == [] {
      assert e + rest == rest;
    } else {
      assert (e + rest)[0] == e[0] && (e + rest)[1..] == e[1..] + rest;
      ScanCopies(e[1..], rest);
      assert [e[0]] + (e[1..] + Scan(rest).text) == e + Scan(rest).text;
    }
  }

  lemma ScanEscape(e: Bytes, rest: Bytes)
    requires e != [] && EscapeLength(e) == |e|
    ensures Scan([BACKSLASH] + e + rest) == Scan(rest).(text := EscapeMeans(e) + Scan(rest).text)
  {
    var b := [BACKSLASH] + e + rest;
    assert b[1..] == e + rest && b[1 + |e|..] == rest;
    assert forall i, j :: 0 <= i <= j <= |e| ==> (e + rest)[i..j] == e[i..j];
    assert EscapeMeans(e + rest) == EscapeMeans(e);
  }

  /** What one rune of the text contributes is read back as that rune's own bytes. */
  lemma EscapedReadsBack(r: Rune, isPrint: Printable, rest: Bytes)
    ensures Scan(Escaped(r, isPrint) + rest) == Scan(rest).(text := Encode(r) + Scan(rest).text)
  {
    hide Scan, Hex, Unhex, Pow16;
    Pows();
    if r == QUOTE as int || r == BACKSLASH as int {
      assert [BACKSLASH] + [r] == Escaped(r, isPrint);
      ScanEscape([r], rest);
    } else if isPrint(r) {
      NoMarks(r);
      ScanCopies(Encode(r), rest);
    } else if Letter(r) != 0 {
      assert [BACKSLASH] + [Letter(r)] == Escaped(r, isPrint);
      ScanEscape([Letter(r)], rest);
    } else if r < 0x20 || r == 0x7F {
      HexEscape(120, r, 2, rest);
    } else if r < 0x10000 {
      HexEscape(117, r, 4, rest);
    } else {
      HexEscape(85, r, 8, rest);
    }
  }

  lemma NoMarks(r: Rune)
    requires r != QUOTE as int && r != BACKSLASH as int
    ensures QUOTE !in Encode(r) && BACKSLASH !in Encode(r)
  {
    EncodeShape(r);
    forall i | 0 <= i < |Encode(r)| ensures Encode(r)[i] != QUOTE && Encode(r)[i] != BACKSLASH {}
  }

  lemma HexEscape(letter: Byte, v: nat, n: nat, rest: Bytes)
    requires (letter == 120 && n == 2) || (letter == 117 && n == 4) || (letter == 85 && n == 8)
    requires v < Pow16(n)
    ensures Scan([BACKSLASH, letter] + Hex(v, n) + rest)
         == Scan(rest).(text := (if letter == 120 && v < 256 then [v] else EncodeIf(v)) + Scan(rest).text)
  {
    hide Scan, Hex, Unhex;
    Pows();
    var e := [letter] + Hex(v, n);
    HexReadsBack(v, n);
    assert e[1..1 + n] == Hex(v, n);
    assert [BACKSLASH, letter] + Hex(v, n) + rest == [BACKSLASH] + e + rest;
    ScanEscape(e, rest);
  }

  lemma UnitReadsBack(s: Bytes, isPrint: Printable, tail: Bytes)
    requires s != []
    ensures Scan(Unit(s, isPrint) + tail) == Scan(tail).(text := s[..Decode(s).width] + Scan(tail).text)
  {
    hide Scan, Escaped, Hex, Decode, Pow16, EncodeIf;
    var d := Decode(s);
    DecodeIsExact(s);
    if d == INVALID {
      Pows();
      HexEscape(120, s[0], 2, tail);
      assert s[..1] == [s[0]];
    } else {
      EscapedReadsBack(d.rune, isPrint, tail);
    }
  }

  lemma InsideSplits(s: Bytes, isPrint: Printable, rest: Bytes)
    requires s != []
    ensures Inside(s, isPrint) + [QUOTE] + rest
         == Unit(s, isPrint) + (Inside(s[Decode(s).width..], isPrint) + [QUOTE] + rest)
  {
    hide Escaped, Hex, Decode;
  }

  /** Quoting is a code: whatever follows it, quoted text is read back as it was. So no text
      passes for another, nor for the text around it. */
  lemma {:induction false} QuotedReadsBack(s: Bytes, isPrint: Printable, rest: Bytes)
    ensures Scan(Inside(s, isPrint) + [QUOTE] + rest) == Scanned(s, rest)
    decreases |s|
  {
    if s == [] {
      assert Inside(s, isPrint) + [QUOTE] + rest == [QUOTE] + rest;
      assert ([QUOTE] + rest)[1..] == rest;
    } else {
      hide Scan, Inside, Unit, Decode;
      var w := Decode(s).width;
      QuotedReadsBack(s[w..], isPrint, rest);
      InsideSplits(s, isPrint, rest);
      UnitReadsBack(s, isPrint, Inside(s[w..], isPrint) + [QUOTE] + rest);
      assert s == s[..w] + s[w..];
    }
  }
}
