/** Text the bridge writes itself, as bytes. */
module Prose {
  import opened Utf8

  const LT: Byte := 60

  /** A character below U+0080, which is one byte of UTF-8; the bridge's own text has no other. */
  function Code(c: char): Byte { if c as int < 0x80 then c as int else 63 }

  function Ascii(s: string): (b: Bytes)
    ensures |b| == |s| && forall i :: 0 <= i < |s| ==> b[i] == Code(s[i])
  {
    seq(|s|, i requires 0 <= i < |s| => Code(s[i]))
  }

  /** Several, one after the other. */
  function Paragraph(phrases: seq<string>): Bytes {
    if phrases == [] then [] else Ascii(phrases[0]) + Paragraph(phrases[1..])
  }

  /** In their order. */
  lemma {:induction false} ParagraphInOrder(a: seq<string>, b: seq<string>)
    ensures Paragraph(a + b) == Paragraph(a) + Paragraph(b)
    ensures forall s: string :: Paragraph([s]) == Ascii(s)
    decreases |a|
  {
    if a == [] {
      assert a + b == b;
    } else {
      ParagraphInOrder(a[1..], b);
      assert (a + b)[1..] == a[1..] + b;
    }
    forall s: string ensures Paragraph([s]) == Ascii(s) { assert [s][1..] == [] && Ascii(s) + [] == Ascii(s); }
  }

  /** A number in decimal, as %d prints it. */
  function Decimal(n: nat): (b: Bytes)
    ensures forall i :: 0 <= i < |b| ==> 48 <= b[i] < 58
  {
    if n < 10 then [48 + n] else Decimal(n / 10) + [48 + n % 10]
  }

  /** The number some digits write. */
  function Value(b: Bytes): int { if b == [] then 0 else 10 * Value(b[..|b| - 1]) + (b[|b| - 1] as int - 48) }

  /** A number is written so that it reads back, without leading zeros. */
  lemma {:induction false} DecimalReadsBack(n: nat)
    ensures Value(Decimal(n)) == n && Decimal(n) != [] && (Decimal(n)[0] == 48 ==> n == 0)
  {
    var b := Decimal(n);
    if n >= 10 {
      DecimalReadsBack(n / 10);
      assert b[..|b| - 1] == Decimal(n / 10);
    } else {
      assert b[..0] == [];
    }
  }

  predicate Plain(s: string) { forall i :: 0 <= i < |s| ==> s[i] != '<' }

  /** Only '<' is encoded with its byte. */
  lemma EncodesMark(r: Rune)
    ensures LT in Encode(r) <==> r == LT as int
  {
    EncodeShape(r);
    if r != LT as int {
      forall i | 0 <= i < |Encode(r)| ensures Encode(r)[i] != LT {}
    } else {
      assert Encode(r)[0] == LT;
    }
  }

  lemma PlainAscii(s: string)
    requires Plain(s)
    ensures LT !in Ascii(s)
  {
  }

  lemma {:induction false} PlainParagraph(phrases: seq<string>)
    requires forall i :: 0 <= i < |phrases| ==> Plain(phrases[i])
    ensures LT !in Paragraph(phrases)
  {
    if phrases != [] {
      PlainAscii(phrases[0]);
      PlainParagraph(phrases[1..]);
    }
  }
}
