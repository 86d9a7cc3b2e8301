/** The people-count smoother of app.py: `people_count_history` is a
    collections.deque with maxlen `smoothing_window_size` holding raw
    per-frame counts, and the smoothed count is round(np.mean(history)). */
module Smoothing {

  import opened Numeric

  /** The last min(n, |s|) elements of s, in their original order. */
  function LastN(s: seq<int>, n: nat): (r: seq<int>)
    ensures |r| == Min(n, |s|)
    ensures r == s[|s| - |r|..]
  {
    if |s| <= n then s else s[|s| - n..]
  }

  /** deque.append on a deque bounded by maxlen: the oldest element is
      evicted once the deque is full (and a maxlen-0 deque stays empty). */
  function DequeAppend(d: seq<int>, maxlen: nat, x: int): (r: seq<int>)
    requires |d| <= maxlen
    ensures |r| <= maxlen
    ensures r == LastN(d + [x], maxlen)
  {
    if maxlen == 0 then []
    else if |d| < maxlen then d + [x]
    else d[1..] + [x]
  }

  /** Appends xs one by one, as `for count in ...: deque.append(count)`. */
  function PushAll(d: seq<int>, maxlen: nat, xs: seq<int>): seq<int>
    requires |d| <= maxlen
    decreases xs
  {
    if xs == [] then d else PushAll(DequeAppend(d, maxlen, xs[0]), maxlen, xs[1..])
  }

  /** round(np.mean(history)), and 0 for an empty history (the value the
      window-resize handler falls back to); a single sample is its own
      mean. */
  function Smoothed(h: seq<int>): (r: int)
    ensures |h| == 0 ==> r == 0
    ensures |h| == 1 ==> r == h[0]
  {
    if |h| == 0 then 0
    else
      if |h| == 1 then
        assert h[1..] == [];
        assert Sum(h) == h[0];
        RoundHalfEvenUnique(h[0], 1, h[0]);
        RoundHalfEven(Sum(h), |h|)
      else RoundHalfEven(Sum(h), |h|)
  }

  /** The smoothed count is the integer nearest the mean, ties going to
      the even neighbour (Python's round). */
  lemma SmoothedIsNearestMean(h: seq<int>)
    requires |h| > 0
    ensures var r := Smoothed(h);
      && 2 * Abs(Sum(h) - r * |h|) <= |h|
      && (2 * Abs(Sum(h) - r * |h|) == |h| ==> r % 2 == 0)
  {
  }

  /** Python's `s[-v:]`: for v == 0 this is the WHOLE list. */
  function PyTail(s: seq<int>, v: nat): seq<int>
  {
    if v == 0 then s else LastN(s, v)
  }

  lemma LastNOfLastN(s: seq<int>, t: seq<int>, n: nat)
    ensures LastN(LastN(s, n) + t, n) == LastN(s + t, n)
  {
    var a := LastN(s, n);
    var l1, l2 := LastN(a + t, n), LastN(s + t, n);
    assert |l1| == |l2|;
    forall k | 0 <= k < |l1| ensures l1[k] == l2[k] {
      var i := |a + t| - |l1| + k;
      var j := |s + t| - |l2| + k;
      if i < |a| {
        assert (a + t)[i] == a[i] == s[|s| - |a| + i];
        assert j == |s| - |a| + i;
      } else {
        assert (a + t)[i] == t[i - |a|] == (s + t)[j];
      }
    }
  }

  /** Pushing xs into a deque with room for maxlen keeps the last maxlen
      elements of everything pushed. */
  lemma {:induction false} PushAllKeepsLast(d: seq<int>, maxlen: nat, xs: seq<int>)
    requires |d| <= maxlen
    ensures PushAll(d, maxlen, xs) == LastN(d + xs, maxlen)
    decreases xs
  {
    if xs == [] {
      assert d + xs == d;
    } else {
      var d' := DequeAppend(d, maxlen, xs[0]);
      calc {
        PushAll(d, maxlen, xs);
        PushAll(d', maxlen, xs[1..]);
        { PushAllKeepsLast(d', maxlen, xs[1..]); }
        LastN(LastN(d + [xs[0]], maxlen) + xs[1..], maxlen);
        { LastNOfLastN(d + [xs[0]], xs[1..], maxlen); }
        LastN(d + [xs[0]] + xs[1..], maxlen);
        { assert d + [xs[0]] + xs[1..] == d + xs; }
        LastN(d + xs, maxlen);
      }
    }
  }

  /** The loop of on_smoothing_window_changed (app.py:1042-1048): a new
      deque(maxlen=v), refilled from `current_history[-v:]`. It keeps
      exactly the last min(v, |current|) samples, in order. */
  method RebuildWindow(current: seq<int>, v: nat) returns (d: seq<int>)
    ensures d == LastN(current, v)
    ensures |d| <= v
  {
    var src := PyTail(current, v);
    d := [];
    var i := 0;
    while i < |src|
      invariant 0 <= i <= |src|
      invariant d == LastN(src[..i], v)
    {
      PushStep(src, i, v);
      d := DequeAppend(d, v, src[i]);
      i := i + 1;
    }
    assert src[..i] == src;
    TailOfTail(current, v);
  }

  /** One turn of the refill loop: appending the next element to the
      window of a prefix gives the window of the longer prefix. */
  lemma PushStep(src: seq<int>, i: nat, v: nat)
    requires i < |src|
    ensures DequeAppend(LastN(src[..i], v), v, src[i]) == LastN(src[..i + 1], v)
  {
    var a, x := src[..i], src[i];
    assert src[..i + 1] == a + [x];
    calc {
      DequeAppend(LastN(a, v), v, x);
      LastN(LastN(a, v) + [x], v);
      { LastNOfLastN(a, [x], v); }
      LastN(a + [x], v);
    }
  }

  /** Re-windowing the Python tail of a list keeps the same window. */
  lemma TailOfTail(s: seq<int>, v: nat)
    ensures LastN(PyTail(s, v), v) == LastN(s, v)
  {
    if v > 0 {
      LastNOfLastN(s, [], v);
      assert LastN(s, v) + [] == LastN(s, v);
      assert s + [] == s;
    }
  }

  /** The smoothed count lies between the smallest and the largest count
      in the window. */
  lemma SmoothedWithinRange(h: seq<int>, lo: int, hi: int)
    requires forall i :: 0 <= i < |h| ==> lo <= h[i] <= hi
    requires |h| > 0 || lo <= 0 <= hi
    ensures lo <= Smoothed(h) <= hi
  {
    if |h| > 0 {
      SumBounds(h, lo, hi);
      SmoothedIsNearestMean(h);
      NearestWithin(Sum(h), |h|, Smoothed(h), lo, hi);
    }
  }

  lemma NearestWithin(num: int, n: int, r: int, lo: int, hi: int)
    requires n > 0 && lo * n <= num <= hi * n
    requires 2 * Abs(num - r * n) <= n
    ensures lo <= r <= hi
  {
    MulStep(r, hi, n);
    MulStep(lo, r, n);
  }

  /** a > b puts a * n at least n above b * n. */
  lemma MulStep(a: int, b: int, n: int)
    requires n > 0
    ensures a > b ==> a * n >= b * n + n
  {
    if a > b {
      var k := a - b - 1;
      assert a * n == b * n + n + k * n;
    }
  }

  /** The worked example of a window of 3: [2, 4, 9] smooths to 5, and
      pushing 100 evicts the 2, leaving [4, 9, 100] which rounds to 38. */
  lemma WindowOfThreeExample()
    ensures PushAll([], 3, [2, 4, 9]) == [2, 4, 9]
    ensures Smoothed([2, 4, 9]) == 5
    ensures DequeAppend([2, 4, 9], 3, 100) == [4, 9, 100]
    ensures Smoothed([4, 9, 100]) == 38
  {
    PushAllKeepsLast([], 3, [2, 4, 9]);
    assert [] + [2, 4, 9] == [2, 4, 9];
    SumExample();
    assert RoundHalfEven(15, 3) == 5;
    assert RoundHalfEven(113, 3) == 38;
  }

  lemma SumExample()
    ensures Sum([2, 4, 9]) == 15 && Sum([4, 9, 100]) == 113
  {
    assert [2, 4, 9][1..] == [4, 9];
    assert [4, 9][1..] == [9];
    assert [4, 9, 100][1..] == [9, 100];
    assert [9, 100][1..] == [100];
  }
}
