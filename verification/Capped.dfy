/** A buffer that keeps the first bytes offered to it and goes on discarding
    (internal/run/exec.go). */
module Capped {
  import opened Utf8

  /** The first bytes of everything offered; a limit of zero or less is none. */
  function Kept(limit: int, offered: Bytes): Bytes {
    if limit > 0 && |offered| > limit then offered[..limit] else offered
  }

  predicate Over(limit: int, offered: Bytes) { limit > 0 && |offered| > limit }

  function Concat(pieces: seq<Bytes>): Bytes {
    if pieces == [] then [] else pieces[0] + Concat(pieces[1..])
  }

  lemma ConcatFrom(before: Bytes, pieces: seq<Bytes>, i: nat)
    requires i <= |pieces|
    ensures i == |pieces| ==> before + Concat(pieces[i..]) == before
    ensures i < |pieces| ==> before + Concat(pieces[i..]) == (before + pieces[i]) + Concat(pieces[i + 1..])
  {
    if i < |pieces| { assert pieces[i..][1..] == pieces[i + 1..]; }
  }

  class Capped {
    const limit: int
    var buf: Bytes
    var over: bool
    /** Everything ever offered. */
    ghost var offered: Bytes

    ghost predicate Valid()
      reads this
    {
      buf == Kept(limit, offered) && (over <==> Over(limit, offered))
    }

    constructor (limit: int)
      ensures Valid() && offered == [] && this.limit == limit
    {
      this.limit := limit;
      buf, over, offered := [], false, [];
    }

    /** Parsed text: nothing is offered, or all of it at once. */
    method Append(s: Bytes) returns (r: bool)
      requires Valid()
      modifies this
      ensures Valid() && offered == old(offered) + s
      ensures r <==> Over(limit, offered)
    {
      offered := offered + s;
      if limit > 0 && |buf| + |s| > limit {
        var room := limit - |buf|;
        if room > 0 {
          buf := buf + s[..room];
        }
        over := true;
        return true;
      }
      buf := buf + s;
      return over;
    }

    /** Raw output, read piece by piece until the reader reports an error; the last
        read may bring data with it. */
    method Drain(pieces: seq<Bytes>) returns (r: bool)
      requires Valid()
      modifies this
      ensures Valid() && offered == old(offered) + Concat(pieces)
      ensures r <==> Over(limit, offered)
    {
      hide Concat;
      var i := 0;
      assert pieces[0..] == pieces;
      while i < |pieces|
        invariant i <= |pieces|
        invariant Valid()
        invariant offered + Concat(pieces[i..]) == old(offered) + Concat(pieces)
      {
        var chunk := pieces[i];
        ConcatFrom(offered, pieces, i);
        if |chunk| > 0 {
          if limit <= 0 || |buf| < limit {
            var room := |chunk|;
            if limit > 0 && |buf| + |chunk| > limit {
              room := limit - |buf|;
              over := true;
            }
            buf := buf + chunk[..room];
          } else {
            over := true;
          }
        }
        offered := offered + chunk;
        i := i + 1;
      }
      ConcatFrom(offered, pieces, i);
      return over;
    }
  }

  /** How the pieces fall makes no difference. */
  lemma {:induction false} ConcatAppend(a: seq<Bytes>, b: seq<Bytes>)
    ensures Concat(a + b) == Concat(a) + Concat(b)
    decreases |a|
  {
    if a == [] {
      assert a + b == b;
    } else {
      ConcatAppend(a[1..], b);
      assert (a + b)[1..] == a[1..] + b;
    }
  }

  /** What is kept of everything is what is kept of what was kept, as long as nothing
      was lost in between; once something was lost, more input changes nothing. */
  lemma KeptOfKept(limit: int, offered: Bytes, more: Bytes)
    ensures Kept(limit, Kept(limit, offered) + more) == Kept(limit, offered + more)
    ensures Over(limit, offered) ==> Kept(limit, offered + more) == Kept(limit, offered) && Over(limit, offered + more)
  {
    if Over(limit, offered) {
      assert (offered[..limit] + more)[..limit] == offered[..limit] == (offered + more)[..limit];
    }
  }
}
