/** Reading a vendor's stream line by line (internal/run/stream.go). The lines a text
    consists of are defined first; the reader that assembles them from whatever pieces
    the buffered reader hands it is proved to deliver exactly those. */
module LineReading {
  import opened Wrappers
  import opened Utf8

  const NL: Byte := 10
  const CR: Byte := 13

  // ---- The lines of a text ----

  /** The index of the first newline, or the length. */
  function LineEnd(s: Bytes): (i: nat)
    ensures i <= |s| && NL !in s[..i] && (i < |s| ==> s[i] == NL)
  {
    if s == [] || s[0] == NL then 0
    else
      var i := LineEnd(s[1..]);
      assert s[..1 + i] == [s[0]] + s[1..][..i];
      1 + i
  }

  function StripCR(s: Bytes): Bytes { if s != [] && s[|s| - 1] == CR then s[..|s| - 1] else s }

  /** Without its terminator; an unterminated last line has none to strip. */
  function FirstLine(s: Bytes): Bytes {
    if LineEnd(s) < |s| then StripCR(s[..LineEnd(s)]) else s
  }

  function AfterLine(s: Bytes): (rest: Bytes)
    ensures s != [] ==> |rest| < |s|
  {
    if LineEnd(s) < |s| then s[LineEnd(s) + 1..] else []
  }

  function Lines(s: Bytes): seq<Bytes>
    decreases |s|
  {
    if s == [] then [] else [FirstLine(s)] + Lines(AfterLine(s))
  }

  datatype Item = Line(bytes: Bytes) | TooLong

  function Limited(line: Bytes, max: nat): Item { if |line| > max then TooLong else Line(line) }

  /** What a reader with this limit must deliver. */
  function Items(s: Bytes, max: nat): seq<Item>
    decreases |s|
  {
    if s == [] then [] else [Limited(FirstLine(s), max)] + Items(AfterLine(s), max)
  }

  /** One item a line, in order; exactly the lines over the limit are replaced. */
  lemma {:induction false} ItemsAreTheLines(s: Bytes, max: nat)
    ensures |Items(s, max)| == |Lines(s)|
    ensures forall i :: 0 <= i < |Lines(s)| ==>
      Items(s, max)[i] == (if |Lines(s)[i]| > max then TooLong else Line(Lines(s)[i]))
    decreases |s|
  {
    if s != [] { ItemsAreTheLines(AfterLine(s), max); }
  }

  // ---- Writing lines and reading them back ----

  function Terminator(cr: bool): Bytes { if cr then [CR, NL] else [NL] }

  /** Lines with their terminators, each of either kind. */
  function Written(lines: seq<Bytes>, crs: seq<bool>): Bytes
    requires |crs| == |lines|
  {
    if lines == [] then [] else lines[0] + Terminator(crs[0]) + Written(lines[1..], crs[1..])
  }

  /** No line holds a newline, and none ended by a bare one ends in a carriage return. */
  predicate Writable(line: Bytes, cr: bool) { NL !in line && (!cr ==> StripCR(line) == line) }

  lemma {:induction false} LineEndAt(a: Bytes, b: Bytes)
    requires NL !in a
    ensures LineEnd(a + [NL] + b) == |a|
    decreases |a|
  {
    var s := a + [NL] + b;
    if a == [] {
      assert s[0] == NL;
    } else {
      assert s[0] == a[0] && s[1..] == a[1..] + [NL] + b;
      LineEndAt(a[1..], b);
    }
  }

  lemma LineEndNone(s: Bytes)
    requires NL !in s
    ensures LineEnd(s) == |s|
  {
    assert forall i :: 0 <= i < |s| ==> s[i] != NL;
  }

  lemma Regroup<T>(a: seq<T>, b: seq<T>, c: seq<T>)
    ensures a + (b + c) == a + b + c
  {
  }

  lemma LineThenRest(line: Bytes, cr: bool, rest: Bytes)
    requires Writable(line, cr)
    ensures Lines(line + Terminator(cr) + rest) == [line] + Lines(rest)
  {
    var s := line + Terminator(cr) + rest;
    var whole := if cr then line + [CR] else line;
    assert s == whole + [NL] + rest;
    LineEndAt(whole, rest);
    assert s[..|whole|] == whole && s[|whole| + 1..] == rest;
    assert cr ==> whole[..|line|] == line;
  }

  function Unterminated(last: Bytes): seq<Bytes> { if last == [] then [] else [last] }

  lemma LinesOfLast(last: Bytes)
    requires NL !in last
    ensures Lines(last) == Unterminated(last)
  {
    LineEndNone(last);
  }

  /** Writing lines and reading them back gives the lines, whichever terminator each has, and
      with or without one on the last, which then keeps a carriage return. */
  lemma {:induction false} LinesOfWritten(lines: seq<Bytes>, crs: seq<bool>, last: Bytes, s: Bytes)
    requires |crs| == |lines| && forall i :: 0 <= i < |lines| ==> Writable(lines[i], crs[i])
    requires NL !in last && s == Written(lines, crs) + last
    ensures Lines(s) == lines + Unterminated(last)
    decreases |lines|
  {
    hide Lines, LineEnd, Unterminated;
    if lines == [] {
      LinesOfLast(last);
    } else {
      LinesOfWritten(lines[1..], crs[1..], last, Written(lines[1..], crs[1..]) + last);
      OneMoreWritten(lines, crs, last);
    }
    assert lines == [] ==> s == last && lines + Unterminated(last) == Unterminated(last);
  }

  lemma OneMoreWritten(lines: seq<Bytes>, crs: seq<bool>, last: Bytes)
    requires lines != [] && |crs| == |lines| && Writable(lines[0], crs[0])
    requires Lines(Written(lines[1..], crs[1..]) + last) == lines[1..] + Unterminated(last)
    ensures Lines(Written(lines, crs) + last) == lines + Unterminated(last)
  {
    hide Lines, LineEnd, Unterminated, Terminator;
    var line, more := lines[0], lines[1..];
    Regroup(line + Terminator(crs[0]), Written(more, crs[1..]), last);
    LineThenRest(line, crs[0], Written(more, crs[1..]) + last);
    Regroup([line], more, Unterminated(last));
    assert lines == [line] + more;
  }

  // ---- Pieces ----

  /** A carriage return must not be cut off from the newline after it. */
  predicate CutsPair(a: Bytes, b: Bytes) { a != [] && a[|a| - 1] == CR && b != [] && b[0] == NL }

  /** What a buffered reader's ReadLine may return when rest is still unread: part of a
      line, the end of one, or an unterminated remainder. */
  predicate Piece(rest: Bytes, chunk: Bytes, isPrefix: bool, left: Bytes) {
    if isPrefix
    then chunk != [] && NL !in chunk && rest == chunk + left && !CutsPair(chunk, left)
    else rest != [] && chunk == FirstLine(rest) && left == AfterLine(rest)
  }

  /** A line begun in one piece ends as it would have whole. */
  lemma LineAcross(a: Bytes, rest: Bytes)
    requires NL !in a && !CutsPair(a, rest)
    ensures FirstLine(a + rest) == a + FirstLine(rest)
    ensures AfterLine(a + rest) == AfterLine(rest)
  {
    var i := LineEnd(rest);
    if i < |rest| {
      var b := rest[i + 1..];
      assert rest == rest[..i] + [NL] + b;
      assert a + rest == (a + rest[..i]) + [NL] + b;
      LineEndAt(a + rest[..i], b);
      LineEndAt(rest[..i], b);
      assert (a + rest)[..|a| + i] == a + rest[..i];
      assert (a + rest)[|a| + i + 1..] == b;
      if i == 0 {
        assert a + rest[..0] == a;
      } else {
        assert (a + rest[..i])[|a| + i - 1] == rest[..i][i - 1];
        assert (a + rest[..i])[..|a| + i - 1] == a + rest[..i][..i - 1];
      }
    } else {
      assert rest[..i] == rest;
      LineEndNone(a + rest);
    }
  }

  /** Adding a piece to what was seen of the line: more of it, or all of it. */
  lemma PieceOf(input: Bytes, seen: Bytes, rest: Bytes, chunk: Bytes, isPrefix: bool, left: Bytes)
    requires input == seen + rest && NL !in seen && !CutsPair(seen, rest)
    requires Piece(rest, chunk, isPrefix, left)
    ensures isPrefix ==> input == (seen + chunk) + left && NL !in seen + chunk && !CutsPair(seen + chunk, left)
    ensures isPrefix ==> |left| < |rest|
    ensures !isPrefix ==> input != [] && FirstLine(input) == seen + chunk && AfterLine(input) == left
  {
    if !isPrefix { LineAcross(seen, rest); }
  }

  lemma Whole(input: Bytes, seen: Bytes)
    requires input == seen + [] && NL !in seen
    ensures FirstLine(input) == seen && AfterLine(input) == [] && LineEnd(input) == |input|
  {
    assert input == seen;
    LineEndNone(seen);
  }

  // ---- The readers ----

  /** The last line, if nothing ends it. */
  predicate Unended(s: Bytes) { s != [] && LineEnd(s) == |s| }

  /** What Next promises of a call made when before was unread. Only a line over the limit
      may be reported together with the end of the input, except that an input that ends
      in a fault may take an unended last line with it. */
  predicate Delivered(before: Bytes, left: Bytes, max: nat, fault: bool, line: Bytes, tooLong: bool, ended: bool) {
    && left == AfterLine(before)
    && (ended ==> left == [])
    && (before == [] ==> ended && !tooLong)
    && (before != [] ==>
          && (tooLong <==> |FirstLine(before)| > max)
          && (!tooLong && !ended ==> line == FirstLine(before))
          && (!tooLong && ended ==> fault && Unended(before)))
  }

  function Got(line: Bytes, tooLong: bool, ended: bool): seq<Item> {
    if tooLong then [TooLong] else if ended then [] else [Line(line)]
  }

  /** What a reader has delivered of a text when it ends: everything, or after a fault
      everything but an unended last line. */
  predicate AsRead(items: seq<Item>, s: Bytes, max: nat, fault: bool) {
    items == Items(s, max) || (fault && Unends(s) && LacksALine(items, Items(s, max)))
  }

  predicate LacksALine(items: seq<Item>, all: seq<Item>) {
    all != [] && items == all[..|all| - 1] && all[|all| - 1].Line?
  }

  /** No newline ends the text. */
  predicate Unends(s: Bytes) { s != [] && s[|s| - 1] != NL }

  /** What is left of a text ends as the text does. */
  predicate Tail(rest: Bytes, s: Bytes) { rest != [] ==> s != [] && s[|s| - 1] == rest[|rest| - 1] }

  /** Items got so far, with those of the rest, are the whole text's. */
  predicate Halfway(items: seq<Item>, rest: Bytes, s: Bytes, max: nat) {
    Tail(rest, s) && items + Items(rest, max) == Items(s, max)
  }

  lemma OneItem(items: seq<Item>, rest: Bytes, s: Bytes, max: nat)
    requires Halfway(items, rest, s, max) && rest != []
    ensures Halfway(items + [Limited(FirstLine(rest), max)], AfterLine(rest), s, max)
  {
    Regroup(items, [Limited(FirstLine(rest), max)], Items(AfterLine(rest), max));
  }

  /** A fault can cost the reader no more than an unended last line. */
  lemma LostLine(items: seq<Item>, rest: Bytes, s: Bytes, max: nat)
    requires Halfway(items, rest, s, max) && Unended(rest) && |FirstLine(rest)| <= max
    ensures AsRead(items, s, max, true)
  {
    assert rest[..LineEnd(rest)] == rest;
    assert Items(AfterLine(rest), max) == [];
    assert Items(rest, max) == [Line(rest)];
  }

  lemma AtTheStart(s: Bytes, max: nat)
    ensures Halfway([], s, s, max)
  {
  }

  /** At the end everything was read, or a fault took an unended line along. */
  lemma AtTheEnd(had: seq<Item>, before: Bytes, tooLong: bool, s: Bytes, max: nat, fault: bool)
    requires Halfway(had, before, s, max) && AfterLine(before) == [] && (before == [] ==> !tooLong)
    requires before != [] ==> (tooLong <==> |FirstLine(before)| > max) && (!tooLong ==> fault && Unended(before))
    ensures AsRead(if tooLong then had + [TooLong] else had, s, max, fault)
  {
    if before != [] {
      OneItem(had, before, s, max);
      if !tooLong { LostLine(had, before, s, max); }
    }
  }

  /** bufio.Reader as far as ReadLine goes: it fills a buffer of the given size, over an
      input that ends, or fails, after its last byte. Whether that is already known when
      the buffer is exactly full depends on how the underlying reads fell. */
  class BufReader {
    var rest: Bytes
    const size: nat
    const fault: Option<string>

    constructor (input: Bytes, size: nat, fault: Option<string>)
      requires size >= 2
      ensures rest == input && this.size == size && this.fault == fault
    {
      rest := input;
      this.size := size;
      this.fault := fault;
    }

    method ReadLine() returns (chunk: Bytes, isPrefix: bool, eof: bool)
      requires size >= 2
      modifies this
      ensures eof <==> old(rest) == []
      ensures eof ==> rest == []
      ensures !eof ==> Piece(old(rest), chunk, isPrefix, rest)
    {
      chunk, isPrefix, eof := [], false, false;
      var i := LineEnd(rest);
      var endKnown: bool := *;
      if i < |rest| && i < size {
        chunk := StripCR(rest[..i]);
        rest := rest[i + 1..];
      } else if |rest| > size || (|rest| == size && !endKnown) {
        isPrefix := true;
        var n := if rest[size - 1] == CR then size - 1 else size;
        chunk := rest[..n];
        assert chunk == rest[..i][..n];
        rest := rest[n..];
      } else if rest == [] {
        eof := true;
      } else {
        chunk := rest;
        rest := [];
      }
    }
  }

  class LineReader {
    const br: BufReader
    const max: nat
    var buf: Bytes

    constructor (br: BufReader, max: nat)
      ensures this.br == br && this.max == max
    {
      this.br := br;
      this.max := max;
      buf := [];
    }

    /** The next line of what is unread, however it arrives. A line over the limit is
        consumed to its end. */
    method Next() returns (line: Bytes, tooLong: bool, ended: bool)
      requires br.size >= 2
      modifies this, br
      ensures Delivered(old(br.rest), br.rest, max, br.fault.Some?, line, tooLong, ended)
    {
      buf := [];
      tooLong := false;
      ghost var input := br.rest;
      ghost var seen: Bytes := [];
      while true
        invariant input == seen + br.rest
        invariant NL !in seen && !CutsPair(seen, br.rest)
        invariant tooLong <==> |seen| > max
        invariant !tooLong ==> buf == seen
        decreases |br.rest|
      {
        ghost var before := br.rest;
        var chunk, isPrefix, failed := br.ReadLine();
        if failed {
          Whole(input, seen);
          if br.fault.None? && |buf| > 0 && !tooLong {
            return buf, false, false;
          }
          return buf, tooLong, true;
        }
        PieceOf(input, seen, before, chunk, isPrefix, br.rest);
        seen := seen + chunk;
        if !tooLong {
          if |buf| + |chunk| > max {
            tooLong := true;
            buf := [];
          } else {
            buf := buf + chunk;
          }
        }
        if !isPrefix {
          return buf, tooLong, false;
        }
      }
    }
  }

  /** Whatever the buffer size and however the reads fall, the results are the lines,
      with exactly those over the limit replaced; a read that fails can cost the last
      line if nothing ends it. */
  method ReadAll(input: Bytes, size: nat, max: nat, fault: Option<string>) returns (items: seq<Item>)
    requires size >= 2
    ensures AsRead(items, input, max, fault.Some?)
  {
    hide Items, AsRead, Halfway, FirstLine, AfterLine, Unended;
    AtTheStart(input, max);
    var br := new BufReader(input, size, fault);
    var lr := new LineReader(br, max);
    items := [];
    var eof := false;
    while !eof
      invariant if eof then AsRead(items, input, max, fault.Some?) else Halfway(items, br.rest, input, max)
      decreases |br.rest|, !eof
    {
      ghost var before := br.rest;
      var line, tooLong, ended := lr.Next();
      if before != [] { OneItem(items, before, input, max); }
      if ended { AtTheEnd(items, before, tooLong, input, max, fault.Some?); }
      assert !ended || !tooLong ==> items + [] == items;
      items := items + Got(line, tooLong, ended);
      eof := ended;
    }
  }
}
