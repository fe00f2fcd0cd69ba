/** Sanitizing an agent's output (internal/sanitize/sanitize.go): what is stripped, how
    the envelope's delimiters are neutralised, and where the text is cut. */
module Sanitize {
  import opened Utf8
  import opened TextSearch
  import opened Prose

  const GT: Byte := 62
  const AMP: Byte := 38
  const SLASH: Byte := 47
  const NL: Byte := 10

  // ---- The delimiters ----

  const TAG_NAME := "untrusted_agent_output"

  function Name(): Bytes { Ascii(TAG_NAME) }

  function OpenTag(): Bytes { [LT] + Name() }

  function CloseTag(): Bytes { [LT, SLASH] + Name() + [GT] }

  function Amplt(): Bytes { [AMP, 108, 116, 59] }

  function EscapedOpen(): Bytes { Amplt() + Name() }

  function EscapedClose(): Bytes { Amplt() + [SLASH] + Name() + [AMP, 103, 116, 59] }

  predicate NameByte(b: Byte) { 97 <= b <= 122 || b == 95 }

  lemma NameIsPlain()
    ensures |Name()| == |TAG_NAME| && forall i :: 0 <= i < |Name()| ==> NameByte(Name()[i])
  {
    forall i | 0 <= i < |TAG_NAME| ensures NameByte(Code(TAG_NAME[i])) {}
  }

  lemma TagsAndEscapes()
    ensures IsTag(OpenTag(), LT) && IsTag(CloseTag(), LT)
    ensures AMP !in OpenTag() && AMP !in CloseTag()
    ensures NL !in OpenTag() && NL !in CloseTag()
    ensures Escapes(EscapedOpen(), LT, AMP) && Escapes(EscapedClose(), LT, AMP)
  {
    NameIsPlain();
    hide Name;
    assert OpenTag()[1..] == Name();
    assert CloseTag()[1..] == [SLASH] + Name() + [GT];
  }

  predicate AllAscii(s: Bytes) { forall i :: 0 <= i < |s| ==> s[i] < 0x80 }

  lemma TagsAreAscii()
    ensures AllAscii(OpenTag()) && AllAscii(CloseTag()) && AllAscii(EscapedOpen()) && AllAscii(EscapedClose())
  {
    NameIsPlain();
  }

  predicate TagFree(s: Bytes) { Count(s, OpenTag()) == 0 && Count(s, CloseTag()) == 0 }

  // ---- Stripping ----

  predicate IsBidi(r: Rune) { 0x202A <= r <= 0x202E || 0x2066 <= r <= 0x2069 }

  predicate IsZeroWidth(r: Rune) { r == 0x200B || r == 0x200C || r == 0x200D || r == 0x2060 || r == 0xFEFF }

  /** The tag characters, which mirror ASCII invisibly. */
  predicate IsTagBlock(r: Rune) { 0xE0000 <= r <= 0xE007F }

  predicate Dropped(r: Rune) {
    r != RUNE_ERROR && r != 10 && r != 9
    && (r == 13 || r < 0x20 || 0x7F <= r <= 0x9F || IsBidi(r) || IsZeroWidth(r) || IsTagBlock(r))
  }

  /** What one decoded rune contributes; a decoding error decodes to the replacement
      character and contributes its encoding. */
  function Kept(r: Rune): Bytes { if Dropped(r) then [] else Encode(r) }

  function Filter(s: Bytes): Bytes
    decreases |s|
  {
    if s == [] then [] else Kept(Decode(s).rune) + Filter(s[Decode(s).width..])
  }

  function Lost(r: Rune): nat { if r == RUNE_ERROR || Dropped(r) then 1 else 0 }

  /** The count for the audit record: runes dropped, and runes replaced. */
  function Removed(s: Bytes): nat
    decreases |s|
  {
    if s == [] then 0 else Lost(Decode(s).rune) + Removed(s[Decode(s).width..])
  }

  predicate AllKept(rs: seq<Rune>) { forall i :: 0 <= i < |rs| ==> !Dropped(rs[i]) }

  /** Well-formed UTF-8 holding only runes that are kept. */
  ghost predicate Safe(s: Bytes) { exists rs: seq<Rune> :: AllKept(rs) && s == EncodeAll(rs) }

  lemma SafeIsValid(s: Bytes)
    requires Safe(s)
    ensures Valid(s)
  {
    var rs: seq<Rune> :| AllKept(rs) && s == EncodeAll(rs);
    EncodeAllIsValid(rs);
  }

  lemma SafeCons(r: Rune, rest: Bytes)
    requires !Dropped(r) && Safe(rest)
    ensures Safe(Encode(r) + rest)
  {
    var rs: seq<Rune> :| AllKept(rs) && rest == EncodeAll(rs);
    assert AllKept([r] + rs) && ([r] + rs)[1..] == rs;
  }

  /** Safe text is a kept rune, then safe text. */
  lemma Head(s: Bytes) returns (r: Rune, rest: Bytes)
    requires Safe(s) && s != []
    ensures !Dropped(r) && s == Encode(r) + rest && Safe(rest)
  {
    var rs: seq<Rune> :| AllKept(rs) && s == EncodeAll(rs);
    r, rest := rs[0], EncodeAll(rs[1..]);
    assert AllKept(rs[1..]);
  }

  lemma SafeConcat(a: Bytes, b: Bytes)
    requires Safe(a) && Safe(b)
    ensures Safe(a + b)
  {
    var x: seq<Rune> :| AllKept(x) && a == EncodeAll(x);
    var y: seq<Rune> :| AllKept(y) && b == EncodeAll(y);
    EncodeAllConcat(x, y);
    assert AllKept(x + y);
  }

  /** Cutting at the start of a rune leaves two safe texts. */
  lemma SafeCut(s: Bytes, k: nat)
    requires Safe(s) && k <= |s| && AtBoundary(s, k)
    ensures Safe(s[..k]) && Safe(s[k..])
  {
    var rs: seq<Rune> :| AllKept(rs) && s == EncodeAll(rs);
    var j := CutBetween(rs, k);
    assert AllKept(rs[..j]) && AllKept(rs[j..]);
  }

  lemma SafeAfterAscii(s: Bytes, k: nat)
    requires Safe(s) && 0 < k <= |s| && s[k - 1] < 0x80
    ensures Safe(s[k..])
  {
    var rs: seq<Rune> :| AllKept(rs) && s == EncodeAll(rs);
    AfterAscii(rs, k);
    SafeCut(s, k);
  }

  lemma NothingIsSafe()
    ensures Safe([])
  {
    assert AllKept([]) && EncodeAll([]) == [];
  }

  /** Nothing that should be stripped survives. */
  lemma {:induction false} FilterIsSafe(s: Bytes)
    ensures Safe(Filter(s))
    decreases |s|
  {
    if s == [] {
      NothingIsSafe();
    } else {
      var rest := s[Decode(s).width..];
      FilterIsSafe(rest);
      if Dropped(Decode(s).rune) {
        assert [] + Filter(rest) == Filter(rest);
      } else {
        SafeCons(Decode(s).rune, Filter(rest));
      }
    }
  }

  /** Nothing that should survive is stripped. */
  lemma {:induction false} FilterKeepsSafe(s: Bytes)
    requires Safe(s)
    ensures Filter(s) == s
    decreases |s|
  {
    if s != [] {
      var r, rest := Head(s);
      DecodeEncode(r, rest);
      FilterKeepsSafe(rest);
      assert s[|Encode(r)|..] == rest;
    }
  }

  // ---- Stripping, rune by rune ----

  /** The runes a text decodes to, invalid bytes each to a replacement character. */
  function Runes(s: Bytes): seq<Rune>
    decreases |s|
  {
    if s == [] then [] else [Decode(s).rune] + Runes(s[Decode(s).width..])
  }

  /** What must not reach a terminal or a model: every control but tab and newline, the zero
      width characters and the word joiner, the embeddings, overrides and isolates of
      bidirectional text, the byte order mark, and the tag characters. */
  predicate Stripped(r: Rune) {
    || (r <= 0x1F && r != 0x09 && r != 0x0A) || 0x7F <= r <= 0x9F
    || 0x200B <= r <= 0x200D || 0x202A <= r <= 0x202E || r == 0x2060 || 0x2066 <= r <= 0x2069
    || r == 0xFEFF || 0xE0000 <= r <= 0xE007F
  }

  function Survivors(rs: seq<Rune>): seq<Rune> {
    if rs == [] then [] else (if Stripped(rs[0]) then [] else [rs[0]]) + Survivors(rs[1..])
  }

  /** How many of them are stripped or are replacement characters. */
  function Casualties(rs: seq<Rune>): nat {
    if rs == [] then 0 else (if Stripped(rs[0]) || rs[0] == RUNE_ERROR then 1 else 0) + Casualties(rs[1..])
  }

  lemma OneRune(r: Rune, rest: seq<Rune>)
    ensures EncodeAll(Survivors([r] + rest)) == Kept(r) + EncodeAll(Survivors(rest))
    ensures Casualties([r] + rest) == Lost(r) + Casualties(rest)
  {
    assert ([r] + rest)[1..] == rest;
    var left := Survivors(rest);
    if Stripped(r) {
      assert [] + left == left && [] + EncodeAll(left) == EncodeAll(left);
    } else {
      assert ([r] + left)[1..] == left;
    }
  }

  /** Of every text exactly the runes that are not stripped survive, in order; the count says
      how many were stripped or replaced. */
  lemma {:induction false} FilterExactly(s: Bytes)
    ensures Filter(s) == EncodeAll(Survivors(Runes(s)))
    ensures Removed(s) == Casualties(Runes(s))
    decreases |s|
  {
    if s != [] {
      hide Decode, Kept, Lost, EncodeAll, Survivors, Casualties;
      var d := Decode(s);
      FilterExactly(s[d.width..]);
      OneRune(d.rune, Runes(s[d.width..]));
    } else {
      assert EncodeAll([]) == [] && Survivors([]) == [];
    }
  }

  lemma RunesAfter(r: Rune, rest: Bytes)
    ensures Runes(Encode(r) + rest) == [r] + Runes(rest)
  {
    hide Decode, Encode;
    DecodeEncode(r, rest);
    assert (Encode(r) + rest)[|Encode(r)|..] == rest;
  }

  /** A well-formed text decodes to the runes it encodes. */
  lemma {:induction false} RunesOfText(rs: seq<Rune>)
    ensures Runes(EncodeAll(rs)) == rs
    decreases |rs|
  {
    hide Decode, Encode;
    if rs != [] {
      RunesOfText(rs[1..]);
      RunesAfter(rs[0], EncodeAll(rs[1..]));
      assert rs == [rs[0]] + rs[1..];
    }
  }

  // ---- Neutralising ----

  /** The HTML escape of a text's angle brackets. */
  function Html(s: Bytes): Bytes {
    if s == [] then []
    else (if s[0] == LT then Amplt() else if s[0] == GT then [AMP, 103, 116, 59] else [s[0]]) + Html(s[1..])
  }

  lemma {:induction false} HtmlConcat(a: Bytes, b: Bytes)
    ensures Html(a + b) == Html(a) + Html(b)
    decreases |a|
  {
    if a == [] {
      assert a + b == b;
    } else {
      assert (a + b)[0] == a[0] && (a + b)[1..] == a[1..] + b;
      HtmlConcat(a[1..], b);
    }
  }

  lemma {:induction false} HtmlOfPlain(s: Bytes)
    requires LT !in s && GT !in s
    ensures Html(s) == s
  {
    if s != [] {
      HtmlOfPlain(s[1..]);
      assert s == [s[0]] + s[1..];
    }
  }

  lemma HtmlOfOne(c: Byte)
    ensures Html([c]) == if c == LT then Amplt() else if c == GT then [AMP, 103, 116, 59] else [c]
  {
  }

  /** What replaces a delimiter reads as the delimiter wherever HTML is rendered. */
  lemma EscapesAreHtml()
    ensures EscapedOpen() == Html(OpenTag()) && EscapedClose() == Html(CloseTag())
  {
    NameIsPlain();
    hide Name, Html;
    HtmlOfPlain(Name());
    HtmlOfPlain([SLASH] + Name());
    HtmlOfOne(LT);
    HtmlOfOne(GT);
    HtmlConcat([LT], Name());
    assert CloseTag() == [LT] + ([SLASH] + Name()) + [GT];
    HtmlConcat([LT] + ([SLASH] + Name()), [GT]);
    HtmlConcat([LT], [SLASH] + Name());
  }

  /** First the closing delimiter, then the opening one. */
  function Neutral(s: Bytes): Bytes {
    ReplaceAll(ReplaceAll(s, CloseTag(), EscapedClose()), OpenTag(), EscapedOpen())
  }

  /** Neither pass leaves a tag or assembles one. */
  lemma NeutralIsTagFree(s: Bytes)
    ensures TagFree(Neutral(s))
  {
    TagsAndEscapes();
    var once := ReplaceAll(s, CloseTag(), EscapedClose());
    ReplaceRemoves(s, CloseTag(), EscapedClose(), CloseTag(), LT, AMP);
    ReplaceRemoves(once, OpenTag(), EscapedOpen(), CloseTag(), LT, AMP);
    ReplaceRemoves(once, OpenTag(), EscapedOpen(), OpenTag(), LT, AMP);
  }

  lemma {:induction false} SafeAscii(s: Bytes)
    requires forall i :: 0 <= i < |s| ==> 0x20 <= s[i] < 0x7F
    ensures Safe(s)
    decreases |s|
  {
    if s == [] {
      NothingIsSafe();
    } else {
      hide Safe;
      SafeAscii(s[1..]);
      SafeCons(s[0], s[1..]);
      assert s == Encode(s[0]) + s[1..];
    }
  }

  /** Bytes that cannot begin the tag pass through. */
  lemma {:induction false} ReplaceSkips(s: Bytes, t: Bytes, r: Bytes, k: nat)
    requires t != [] && k <= |s| && forall i :: 0 <= i < k ==> s[i] != t[0]
    ensures ReplaceAll(s, t, r) == s[..k] + ReplaceAll(s[k..], t, r)
    decreases k
  {
    if k == 0 {
      assert s[0..] == s;
    } else {
      StartsAt(s, t, 0);
      ReplaceSkips(s[1..], t, r, k - 1);
      assert s[1..][k - 1..] == s[k..];
      assert s[..k] == [s[0]] + s[1..][..k - 1];
    }
  }

  /** Replacing ASCII by ASCII never splits a rune. */
  lemma {:induction false} ReplaceKeepsSafe(s: Bytes, t: Bytes, r: Bytes)
    requires Safe(s) && t != [] && AllAscii(t) && Safe(r)
    ensures Safe(ReplaceAll(s, t, r))
    decreases |s|
  {
    if s == [] {
    } else if StartsWith(s, t) {
      assert s[|t| - 1] == s[..|t|][|t| - 1];
      SafeAfterAscii(s, |t|);
      ReplaceKeepsSafe(s[|t|..], t, r);
      SafeConcat(r, ReplaceAll(s[|t|..], t, r));
    } else {
      var c, rest := Head(s);
      var head := Encode(c);
      assert s[|head|..] == rest && s[..|head|] == head;
      ReplaceKeepsSafe(rest, t, r);
      SafeCons(c, ReplaceAll(rest, t, r));
      EncodeShape(c);
      if |head| > 1 {
        ReplaceSkips(s, t, r, |head|);
      }
    }
  }

  lemma NeutralKeepsSafe(s: Bytes)
    requires Safe(s)
    ensures Safe(Neutral(s))
  {
    NameIsPlain();
    TagsAreAscii();
    SafeAscii(EscapedClose());
    SafeAscii(EscapedOpen());
    var once := ReplaceAll(s, CloseTag(), EscapedClose());
    ReplaceKeepsSafe(s, CloseTag(), EscapedClose());
    ReplaceKeepsSafe(once, OpenTag(), EscapedOpen());
  }

  lemma NeutralKeepsTagFree(s: Bytes)
    requires TagFree(s)
    ensures Neutral(s) == s
  {
    ReplaceNothing(s, CloseTag(), EscapedClose());
    ReplaceNothing(s, OpenTag(), EscapedOpen());
  }

  // ---- Cutting ----

  /** The last rune boundary not after max. */
  function CutAt(s: Bytes, max: nat): (cut: nat)
    requires max < |s|
    ensures cut <= max
    ensures cut == 0 || RuneStart(s[cut])
    ensures forall k :: cut < k <= max ==> !RuneStart(s[k])
    decreases max
  {
    if max == 0 || RuneStart(s[max]) then max else CutAt(s, max - 1)
  }

  function Truncate(s: Bytes, max: nat): Bytes {
    if |s| <= max then s else s[..CutAt(s, max)]
  }

  method TruncateUtf8(s: Bytes, maxBytes: nat) returns (t: Bytes)
    ensures t == Truncate(s, maxBytes)
  {
    if |s| <= maxBytes { return s; }
    var cut: int := maxBytes;
    while cut > 0 && !RuneStart(s[cut])
      invariant 0 <= cut <= maxBytes
      invariant CutAt(s, cut) == CutAt(s, maxBytes)
    {
      cut := cut - 1;
    }
    return s[..cut];
  }

  // ---- Clean ----

  datatype Cleaned = Cleaned(text: Bytes, truncated: bool, removed: nat)

  /** The cleaned text before the cap. */
  function Whole(s: Bytes): Bytes { Neutral(Filter(s)) }

  function Clean(s: Bytes, max: int): Cleaned {
    if max > 0 && |Whole(s)| > max
    then Cleaned(Truncate(Whole(s), max), true, Removed(s))
    else Cleaned(Whole(s), false, Removed(s))
  }

  /** One turn of the loop's switch. */
  method CleanRune(r: Rune) returns (out: Bytes, lost: nat)
    ensures out == Kept(r) && lost == Lost(r)
  {
    out, lost := [], 0;
    if r == RUNE_ERROR {
      out, lost := Encode(RUNE_ERROR), 1;
    } else if r == 10 || r == 9 {
      out := Encode(r);
    } else if r == 13 {
      lost := 1;
    } else if r < 0x20 || 0x7F <= r <= 0x9F {
      lost := 1;
    } else if IsBidi(r) || IsZeroWidth(r) || IsTagBlock(r) {
      lost := 1;
    } else {
      out := Encode(r);
    }
  }

  /** The first i bytes are done: what they left, and what was lost of them. */
  predicate Done(s: Bytes, i: nat, b: Bytes, removed: nat) {
    i <= |s| && b + Filter(s[i..]) == Filter(s) && removed + Removed(s[i..]) == Removed(s)
  }

  lemma DoneMore(s: Bytes, i: nat, d: Decoded, b: Bytes, removed: nat)
    requires i < |s| && d == Decode(s[i..]) && Done(s, i, b, removed)
    ensures 1 <= d.width <= |s| - i
    ensures Done(s, i + d.width, b + Kept(d.rune), removed + Lost(d.rune))
  {
    hide Decode, Lost, Kept;
    var rest := s[i + d.width..];
    assert s[i..][d.width..] == rest;
    assert b + (Kept(d.rune) + Filter(rest)) == (b + Kept(d.rune)) + Filter(rest);
  }

  lemma DoneAtStart(s: Bytes)
    ensures Done(s, 0, [], 0)
  {
    hide Filter, Removed;
    assert s[0..] == s;
    assert [] + Filter(s) == Filter(s);
  }

  lemma DoneAtEnd(s: Bytes, b: Bytes, removed: nat)
    requires Done(s, |s|, b, removed)
    ensures b == Filter(s) && removed == Removed(s)
  {
    var left := s[|s|..];
    assert left == [];
    NothingToFilter();
    hide Filter, Removed;
    assert b + [] == b;
  }

  lemma NothingToFilter()
    ensures Filter([]) == [] && Removed([]) == 0
  {
  }

  method FilterText(s: Bytes) returns (b: Bytes, removed: nat)
    ensures b == Filter(s) && removed == Removed(s)
  {
    hide Done, Decode, Filter, Removed;
    b, removed := [], 0;
    var i := 0;
    DoneAtStart(s);
    while i < |s|
      invariant i <= |s| && Done(s, i, b, removed)
    {
      var d := Decode(s[i..]);
      DoneMore(s, i, d, b, removed);
      var out, lost := CleanRune(d.rune);
      b, removed, i := b + out, removed + lost, i + d.width;
    }
    DoneAtEnd(s, b, removed);
  }

  method CleanText(s: Bytes, maxBytes: int) returns (r: Cleaned)
    ensures r == Clean(s, maxBytes)
  {
    var out, removed := FilterText(s);
    out := ReplaceAll(out, CloseTag(), EscapedClose());
    out := ReplaceAll(out, OpenTag(), EscapedOpen());
    var truncated := false;
    if maxBytes > 0 && |out| > maxBytes {
      out := TruncateUtf8(out, maxBytes);
      truncated := true;
    }
    r := Cleaned(out, truncated, removed);
  }

  lemma WholeIsClean(s: Bytes)
    ensures Safe(Whole(s)) && TagFree(Whole(s))
  {
    FilterIsSafe(s);
    NeutralKeepsSafe(Filter(s));
    NeutralIsTagFree(Filter(s));
  }

  lemma CutIsABoundary(s: Bytes, max: nat)
    requires Safe(s) && max < |s|
    ensures AtBoundary(s, CutAt(s, max))
  {
    var r, rest := Head(s);
    EncodeShape(r);
  }

  /** What comes out is well-formed, holds no stripped rune and no delimiter, fits the
      cap, and is the longest prefix of the cleaned text that ends on a rune and fits. */
  lemma CleanIsClean(s: Bytes, max: int)
    ensures var r := Clean(s, max);
      && Safe(r.text) && Valid(r.text) && TagFree(r.text)
      && r.text <= Whole(s) && (r.truncated <==> r.text != Whole(s))
      && (max > 0 ==> |r.text| <= max)
      && (max <= 0 ==> !r.truncated)
    ensures forall k :: |Clean(s, max).text| < k <= |Whole(s)| && k <= max ==> !AtBoundary(Whole(s), k)
  {
    hide Whole, Safe, Valid, Count, OpenTag, CloseTag, EscapedOpen, EscapedClose, Escapes;
    var w, r := Whole(s), Clean(s, max);
    WholeIsClean(s);
    TagsAndEscapes();
    if r.truncated {
      var cut := CutAt(w, max);
      CutIsABoundary(w, max);
      SafeCut(w, cut);
      CountPrefix(w, OpenTag(), cut);
      CountPrefix(w, CloseTag(), cut);
    }
    SafeIsValid(r.text);
  }

  /** Exactly the texts that cleaning leaves alone. */
  lemma CleanLeavesAlone(s: Bytes, max: int)
    ensures (Clean(s, max).text == s && !Clean(s, max).truncated)
       <==> (Safe(s) && TagFree(s) && (max <= 0 || |s| <= max))
  {
    CleanIsClean(s, max);
    if Safe(s) && TagFree(s) {
      FilterKeepsSafe(s);
      NeutralKeepsTagFree(s);
    }
  }

  /** Cleaning twice with the same cap is cleaning once. */
  lemma CleanIsIdempotent(s: Bytes, max: int)
    ensures var once := Clean(s, max).text;
      Clean(once, max).text == once && !Clean(once, max).truncated
  {
    CleanIsClean(s, max);
    CleanLeavesAlone(Clean(s, max).text, max);
  }
}
