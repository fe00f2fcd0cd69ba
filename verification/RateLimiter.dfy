/** The sliding-window limiter on starting runs (internal/policy/toggles.go). */
module RateLimiter {
  /** Nanoseconds. */
  const MINUTE := 60_000_000_000

  /** The attempts later than the cutoff, in order. */
  function Later(times: seq<int>, cutoff: int): seq<int> {
    if times == [] then []
    else
      var before, t := Later(times[..|times| - 1], cutoff), times[|times| - 1];
      if t > cutoff then before + [t] else before
  }

  /** One attempt: what is remembered afterwards, and whether it may proceed. */
  function Allow(times: seq<int>, perMin: int, now: int): (seq<int>, bool) {
    if perMin <= 0 then (times, true)
    else
      var kept := Later(times, now - MINUTE);
      if |kept| >= perMin then (kept, false) else (kept + [now], true)
  }

  class Limiter {
    const perMin: int
    var times: array<int>
    var len: nat

    ghost predicate Valid()
      reads this
    {
      len <= times.Length
    }

    ghost function View(): seq<int>
      reads this, times
      requires Valid()
    {
      times[..len]
    }

    constructor (perMin: int)
      ensures Valid() && View() == [] && this.perMin == perMin && fresh(times)
    {
      this.perMin := perMin;
      times := new int[0];
      len := 0;
    }

    /** Keeps what is later than the cutoff, in place. */
    method Compact(cutoff: int)
      requires Valid()
      modifies this`len, times
      ensures times == old(times)
      ensures Valid() && View() == Later(old(View()), cutoff)
    {
      var ts, n := times, len;
      var kept, i := 0, 0;
      ghost var was := View();
      while i < n
        invariant kept <= i <= n <= ts.Length
        invariant ts[..kept] == Later(was[..i], cutoff)
        invariant ts[i..n] == was[i..]
      {
        assert was[..i + 1][..i] == was[..i];
        assert ts[i] == ts[i..n][0] == was[i];
        if ts[i] > cutoff {
          ts[kept] := ts[i];
          kept := kept + 1;
        }
        i := i + 1;
      }
      assert was[..i] == was;
      len := kept;
    }

    /** Appends, moving to a larger array when this one is full. */
    method Append(t: int)
      requires Valid()
      modifies this, times
      ensures Valid() && View() == old(View()) + [t]
      ensures times == old(times) || fresh(times)
    {
      ghost var was := View();
      if len == times.Length {
        var ts, n := times, len;
        var larger := new int[2 * n + 1];
        for i := 0 to n
          modifies larger
          invariant larger[..i] == was[..i]
        {
          larger[i] := ts[i];
        }
        times := larger;
      }
      times[len] := t;
      len := len + 1;
    }

    method Attempt(now: int) returns (ok: bool)
      requires Valid()
      modifies this, times
      ensures Valid() && (times == old(times) || fresh(times))
      ensures (View(), ok) == Allow(old(View()), perMin, now)
    {
      if perMin <= 0 { return true; }
      Compact(now - MINUTE);
      if len >= perMin { return false; }
      Append(now);
      return true;
    }
  }

  // ---- Whole histories ----

  /** What is remembered after attempts at these times. */
  function Remembered(nows: seq<int>, perMin: int): seq<int> {
    if nows == [] then []
    else Allow(Remembered(nows[..|nows| - 1], perMin), perMin, nows[|nows| - 1]).0
  }

  /** Whether the k-th attempt was admitted. */
  predicate Passed(nows: seq<int>, perMin: int, k: nat)
    requires k < |nows|
  {
    Allow(Remembered(nows[..k], perMin), perMin, nows[k]).1
  }

  /** Every admitted attempt there ever was. */
  function Admitted(nows: seq<int>, perMin: int): seq<int> {
    if nows == [] then []
    else
      var k := |nows| - 1;
      var before := Admitted(nows[..k], perMin);
      if Passed(nows, perMin, k) then before + [nows[k]] else before
  }

  /** How many fall in the minute (t - 60s, t]. */
  function Window(times: seq<int>, t: int): nat {
    if times == [] then 0
    else
      var n := |times| - 1;
      Window(times[..n], t) + (if t - MINUTE < times[n] <= t then 1 else 0)
  }

  predicate Sorted(nows: seq<int>) { forall i, j :: 0 <= i <= j < |nows| ==> nows[i] <= nows[j] }

  lemma LaterAppend(times: seq<int>, t: int, cutoff: int)
    ensures Later(times + [t], cutoff) == (if t > cutoff then Later(times, cutoff) + [t] else Later(times, cutoff))
  {
    assert (times + [t])[..|times|] == times;
  }

  lemma WindowAppend(times: seq<int>, x: int, t: int)
    ensures Window(times + [x], t) == Window(times, t) + (if t - MINUTE < x <= t then 1 else 0)
  {
    assert (times + [x])[..|times|] == times;
  }

  /** Filtering by an earlier cutoff first makes no difference. */
  lemma {:induction false} LaterLater(times: seq<int>, a: int, b: int)
    requires a <= b
    ensures Later(Later(times, a), b) == Later(times, b)
  {
    if times != [] {
      var n := |times| - 1;
      LaterLater(times[..n], a, b);
      if times[n] > a { LaterAppend(Later(times[..n], a), times[n], b); }
    }
  }

  /** When nothing is later than now, what is kept is what the window holds. */
  lemma {:induction false} LaterIsWindow(times: seq<int>, now: int)
    requires forall i :: 0 <= i < |times| ==> times[i] <= now
    ensures |Later(times, now - MINUTE)| == Window(times, now)
  {
    if times != [] { LaterIsWindow(times[..|times| - 1], now); }
  }

  /** Past the last attempt a window only loses. */
  lemma {:induction false} WindowShrinks(times: seq<int>, now: int, t: int)
    requires now <= t && forall i :: 0 <= i < |times| ==> times[i] <= now
    ensures Window(times, t) <= Window(times, now)
  {
    if times != [] { WindowShrinks(times[..|times| - 1], now, t); }
  }

  lemma {:induction false} AdmittedBefore(nows: seq<int>, perMin: int, now: int)
    requires forall i :: 0 <= i < |nows| ==> nows[i] <= now
    ensures forall i :: 0 <= i < |Admitted(nows, perMin)| ==> Admitted(nows, perMin)[i] <= now
  {
    if nows != [] { AdmittedBefore(nows[..|nows| - 1], perMin, now); }
  }

  /** What is remembered loses nothing a later attempt would count. */
  lemma {:induction false} RememberedEnough(nows: seq<int>, perMin: int, now: int)
    requires perMin > 0 && Sorted(nows) && forall i :: 0 <= i < |nows| ==> nows[i] <= now
    ensures Later(Remembered(nows, perMin), now - MINUTE) == Later(Admitted(nows, perMin), now - MINUTE)
  {
    if nows != [] {
      var k := |nows| - 1;
      var past, last, cutoff := nows[..k], nows[k], now - MINUTE;
      RememberedEnough(past, perMin, last);
      var kept, all := Later(Remembered(past, perMin), last - MINUTE), Admitted(past, perMin);
      LaterLater(all, last - MINUTE, cutoff);
      assert Later(kept, cutoff) == Later(all, cutoff);
      if |kept| < perMin {
        LaterAppend(kept, last, cutoff);
        LaterAppend(all, last, cutoff);
      }
    }
  }

  /** Refused exactly when the minute before already holds as many as are allowed. */
  lemma RefusedExactly(nows: seq<int>, perMin: int, k: nat)
    requires perMin > 0 && Sorted(nows) && k < |nows|
    ensures Passed(nows, perMin, k) <==> Window(Admitted(nows[..k], perMin), nows[k]) < perMin
  {
    hide Remembered, Admitted, Later, Window;
    RememberedEnough(nows[..k], perMin, nows[k]);
    AdmittedBefore(nows[..k], perMin, nows[k]);
    LaterIsWindow(Admitted(nows[..k], perMin), nows[k]);
  }

  /** No minute, wherever it falls, ever holds more than perMin admitted attempts. */
  lemma {:induction false} NoWindowExceeds(nows: seq<int>, perMin: int, t: int)
    requires perMin > 0 && Sorted(nows)
    ensures Window(Admitted(nows, perMin), t) <= perMin
  {
    if nows != [] {
      var k := |nows| - 1;
      var past, last := nows[..k], nows[k];
      NoWindowExceeds(past, perMin, t);
      RefusedExactly(nows, perMin, k);
      AdmittedBefore(past, perMin, last);
      WindowAppend(Admitted(past, perMin), last, t);
      if last <= t { WindowShrinks(Admitted(past, perMin), last, t); }
    }
  }

  /** Without a limit nothing is refused. */
  lemma NoLimit(nows: seq<int>, perMin: int, k: nat)
    requires perMin <= 0 && k < |nows|
    ensures Passed(nows, perMin, k)
  {
  }
}
