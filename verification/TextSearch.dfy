/** Finding and replacing a delimiter: Go's strings.ReplaceAll on bytes, and what it
    can and cannot leave behind. */
module TextSearch {
  import opened Utf8

  predicate StartsWith(s: Bytes, t: Bytes) { |t| <= |s| && s[..|t|] == t }

  /** The number of places where t begins. */
  function Count(s: Bytes, t: Bytes): nat
    decreases |s|
  {
    if s == [] then 0 else (if StartsWith(s, t) then 1 else 0) + Count(s[1..], t)
  }

  /** Left to right, without overlaps. */
  function ReplaceAll(s: Bytes, t: Bytes, r: Bytes): Bytes
    requires t != []
    decreases |s|
  {
    if s == [] then []
    else if StartsWith(s, t) then r + ReplaceAll(s[|t|..], t, r)
    else [s[0]] + ReplaceAll(s[1..], t, r)
  }

  lemma StartsAt(s: Bytes, t: Bytes, i: nat)
    ensures StartsWith(s, t) && i < |t| ==> i < |s| && s[i] == t[i]
  {
    if StartsWith(s, t) && i < |t| { assert s[..|t|][i] == s[i]; }
  }

  /** A delimiter: it begins with a byte it never repeats. */
  predicate IsTag(t: Bytes, mark: Byte) { t != [] && t[0] == mark && mark !in t[1..] }

  /** A replacement for it: no such byte, and a first byte no tag contains. */
  predicate Escapes(r: Bytes, mark: Byte, amp: Byte) { r != [] && r[0] == amp && mark !in r }

  /** What the output starts with, the input started with, unless an escape shows. */
  lemma {:induction false} StartsBack(s: Bytes, t: Bytes, r: Bytes, u: Bytes, mark: Byte, amp: Byte)
    requires t != [] && Escapes(r, mark, amp) && amp !in u
    requires StartsWith(ReplaceAll(s, t, r), u)
    ensures StartsWith(s, u)
    decreases |u|
  {
    var out := ReplaceAll(s, t, r);
    if u != [] {
      assert out[0] == out[..|u|][0] == u[0];
      assert !StartsWith(s, t);
      assert out[1..][..|u| - 1] == out[..|u|][1..];
      StartsBack(s[1..], t, r, u[1..], mark, amp);
      assert s[1..][..|u| - 1] == s[..|u|][1..];
      assert s[..|u|] == [s[0]] + s[..|u|][1..];
    }
  }

  /** A tag cannot begin among bytes without its mark. */
  lemma {:induction false} NoStart(a: Bytes, b: Bytes, t: Bytes, mark: Byte)
    requires IsTag(t, mark) && mark !in a
    ensures Count(a + b, t) == Count(b, t)
    decreases |a|
  {
    if a == [] {
      assert a + b == b;
    } else {
      assert (a + b)[1..] == a[1..] + b;
      assert (a + b)[0] == a[0];
      StartsAt(a + b, t, 0);
      NoStart(a[1..], b, t, mark);
    }
  }

  /** Replacing a tag removes every occurrence of it, and brings in no other tag. */
  lemma {:induction false} ReplaceRemoves(s: Bytes, t: Bytes, r: Bytes, u: Bytes, mark: Byte, amp: Byte)
    requires IsTag(t, mark) && Escapes(r, mark, amp) && IsTag(u, mark) && amp !in u
    requires u == t || Count(s, u) == 0
    ensures Count(ReplaceAll(s, t, r), u) == 0
    decreases |s|
  {
    var out := ReplaceAll(s, t, r);
    if s == [] {
    } else if StartsWith(s, t) {
      CountSuffix(s, u, |t|);
      ReplaceRemoves(s[|t|..], t, r, u, mark, amp);
      NoStart(r, ReplaceAll(s[|t|..], t, r), u, mark);
    } else {
      ReplaceRemoves(s[1..], t, r, u, mark, amp);
      assert out[1..] == ReplaceAll(s[1..], t, r);
      if StartsWith(out, u) { StartsBack(s, t, r, u, mark, amp); }
    }
  }

  lemma {:induction false} CountSuffix(s: Bytes, u: Bytes, k: nat)
    requires k <= |s|
    ensures Count(s[k..], u) <= Count(s, u)
    decreases k
  {
    if k > 0 {
      CountSuffix(s[1..], u, k - 1);
      assert s[1..][k - 1..] == s[k..];
    } else {
      assert s[k..] == s;
    }
  }

  lemma {:induction false} CountPrefix(s: Bytes, u: Bytes, k: nat)
    requires k <= |s| && u != []
    ensures Count(s[..k], u) <= Count(s, u)
    decreases k
  {
    if k > 0 {
      CountPrefix(s[1..], u, k - 1);
      assert s[..k][1..] == s[1..][..k - 1];
      if StartsWith(s[..k], u) { assert s[..k][..|u|] == s[..|u|]; }
    }
  }

  /** Without the tag there is nothing to replace. */
  lemma {:induction false} ReplaceNothing(s: Bytes, t: Bytes, r: Bytes)
    requires t != [] && Count(s, t) == 0
    ensures ReplaceAll(s, t, r) == s
    decreases |s|
  {
    if s != [] {
      ReplaceNothing(s[1..], t, r);
      assert s == [s[0]] + s[1..];
    }
  }

  /** What stands between the occurrences, found left to right. */
  function Pieces(s: Bytes, t: Bytes): (pieces: seq<Bytes>)
    requires t != []
    ensures pieces != []
    decreases |s|
  {
    if s == [] then [[]]
    else if StartsWith(s, t) then [[]] + Pieces(s[|t|..], t)
    else
      var rest := Pieces(s[1..], t);
      [[s[0]] + rest[0]] + rest[1..]
  }

  function Joined(pieces: seq<Bytes>, glue: Bytes): Bytes
    requires pieces != []
  {
    if |pieces| == 1 then pieces[0] else pieces[0] + glue + Joined(pieces[1..], glue)
  }

  lemma JoinedMore(c: Byte, pieces: seq<Bytes>, glue: Bytes)
    requires pieces != []
    ensures Joined([[c] + pieces[0]] + pieces[1..], glue) == [c] + Joined(pieces, glue)
  {
    var more := [[c] + pieces[0]] + pieces[1..];
    assert more[1..] == pieces[1..];
    if |pieces| > 1 {
      var rest := glue + Joined(pieces[1..], glue);
      assert ([c] + pieces[0]) + rest == [c] + (pieces[0] + rest);
    }
  }

  lemma JoinedNext(pieces: seq<Bytes>, glue: Bytes)
    requires pieces != []
    ensures Joined([[]] + pieces, glue) == glue + Joined(pieces, glue)
  {
    assert ([[]] + pieces)[1..] == pieces;
  }

  /** Replacing changes the occurrences and nothing else: taken apart at the one, a text put
      together again with the other. */
  lemma {:induction false} ReplaceRejoins(s: Bytes, t: Bytes, r: Bytes)
    requires t != []
    ensures Joined(Pieces(s, t), t) == s
    ensures Joined(Pieces(s, t), r) == ReplaceAll(s, t, r)
    decreases |s|
  {
    if s == [] {
    } else if StartsWith(s, t) {
      var rest := Pieces(s[|t|..], t);
      ReplaceRejoins(s[|t|..], t, r);
      JoinedNext(rest, t);
      JoinedNext(rest, r);
      assert s == s[..|t|] + s[|t|..];
    } else {
      var rest := Pieces(s[1..], t);
      ReplaceRejoins(s[1..], t, r);
      JoinedMore(s[0], rest, t);
      JoinedMore(s[0], rest, r);
      assert s == [s[0]] + s[1..];
    }
  }

  lemma {:induction false} FirstPiece(s: Bytes, t: Bytes)
    requires t != []
    ensures Pieces(s, t)[0] <= s
    decreases |s|
  {
    if s != [] && !StartsWith(s, t) { FirstPiece(s[1..], t); }
  }

  lemma PrefixStarts(a: Bytes, b: Bytes, t: Bytes)
    requires a <= b
    ensures StartsWith(a, t) ==> StartsWith(b, t)
  {
    if StartsWith(a, t) { assert b[..|t|] == a[..|t|]; }
  }

  /** Nothing is left between the occurrences that is one. */
  lemma {:induction false} PiecesHoldNone(s: Bytes, t: Bytes)
    requires t != []
    ensures forall p :: p in Pieces(s, t) ==> Count(p, t) == 0
    decreases |s|
  {
    if s == [] {
    } else if StartsWith(s, t) {
      PiecesHoldNone(s[|t|..], t);
    } else {
      var rest := Pieces(s[1..], t);
      PiecesHoldNone(s[1..], t);
      FirstPiece(s[1..], t);
      var first := [s[0]] + rest[0];
      assert first[1..] == rest[0] && rest[0] in rest;
      PrefixStarts(first, s, t);
      forall p | p in Pieces(s, t) ensures Count(p, t) == 0 {
        if p != first { assert p in rest[1..] && p in rest; }
      }
    }
  }

  /** A byte outside the tag separates: nothing straddles it. */
  lemma {:induction false} CountSeam(a: Bytes, c: Byte, b: Bytes, t: Bytes)
    requires t != [] && c !in t
    ensures Count(a + [c] + b, t) == Count(a, t) + Count(b, t)
    decreases |a|
  {
    var s := a + [c] + b;
    if a == [] {
      assert s[1..] == b && s[0] == c;
      StartsAt(s, t, 0);
    } else {
      assert s[1..] == a[1..] + [c] + b;
      CountSeam(a[1..], c, b, t);
      StartsAt(s, t, |a|);
      if |t| <= |a| { assert s[..|t|] == a[..|t|]; }
    }
  }
}
