/** Arithmetic shared by the whole model: Python's int() truncation,
    Python/NumPy round() (round half to even), sums and clamps. */
module Numeric {

  function Min(a: int, b: int): int { if a <= b then a else b }
  function Max(a: int, b: int): int { if a >= b then a else b }
  function Abs(a: int): nat { if a >= 0 then a else -a }
  function RealMax(a: real, b: real): real { if a >= b then a else b }
  function RealMin(a: real, b: real): real { if a <= b then a else b }

  /** Python's `int(x)` on a float: truncation toward zero. */
  function Trunc(x: real): (r: int)
    ensures x >= 0.0 ==> 0 <= r && r as real <= x < r as real + 1.0
    ensures x < 0.0 ==> r <= 0 && r as real - 1.0 < x <= r as real
  {
    if x >= 0.0 then x.Floor else -((-x).Floor)
  }

  /** `max(lo, min(hi, v))`, the clamp the source writes out everywhere. */
  function Clamp(lo: int, hi: int, v: int): (r: int)
    ensures lo <= hi ==> lo <= r <= hi
    ensures lo <= v <= hi ==> r == v
    ensures v < lo ==> r == lo
    ensures lo <= hi && hi < v ==> r == hi
  {
    Max(lo, Min(hi, v))
  }

  function Sum(s: seq<int>): int
  {
    if s == [] then 0 else s[0] + Sum(s[1..])
  }

  lemma {:induction false} SumAppend(s: seq<int>, x: int)
    ensures Sum(s + [x]) == Sum(s) + x
  {
    if s == [] {
      assert [] + [x] == [x];
    } else {
      assert (s + [x])[1..] == s[1..] + [x];
      SumAppend(s[1..], x);
    }
  }

  /** Every element in [lo, hi] puts the sum in [lo * |s|, hi * |s|]. */
  lemma {:induction false} SumBounds(s: seq<int>, lo: int, hi: int)
    requires forall i :: 0 <= i < |s| ==> lo <= s[i] <= hi
    ensures lo * |s| <= Sum(s) <= hi * |s|
  {
    if s != [] {
      SumBounds(s[1..], lo, hi);
      assert lo * |s| == lo + lo * |s[1..]|;
      assert hi * |s| == hi + hi * |s[1..]|;
    }
  }

  /** The integer nearest to num / den, ties going to the even neighbour:
      what Python's round() does to the float `num / den`. */
  function RoundHalfEven(num: int, den: int): (r: int)
    requires den > 0
    ensures 2 * Abs(num - r * den) <= den
    ensures 2 * Abs(num - r * den) == den ==> r % 2 == 0
  {
    var q := num / den;
    var rem := num % den;
    assert num == q * den + rem && 0 <= rem < den;
    assert (q + 1) * den == q * den + den;
    if 2 * rem < den then q
    else if 2 * rem > den then q + 1
    else if q % 2 == 0 then q
    else q + 1
  }

  lemma MulBounds(t: int, den: int)
    requires den > 0
    ensures t >= 1 ==> t * den >= den
    ensures t <= -2 ==> t * den <= -2 * den
  {
  }

  /** The two clauses of RoundHalfEven's contract determine the result:
      any integer r meeting them is RoundHalfEven(num, den). */
  lemma RoundHalfEvenUnique(num: int, den: int, r: int)
    requires den > 0
    requires 2 * Abs(num - r * den) <= den
    requires 2 * Abs(num - r * den) == den ==> r % 2 == 0
    ensures r == RoundHalfEven(num, den)
  {
    var q0, rem := num / den, num % den;
    var t := q0 - r;
    assert num - r * den == t * den + rem by {
      assert num == q0 * den + rem;
      assert q0 * den - r * den == t * den;
    }
    MulBounds(t, den);
    // so t is 0 or -1: r is q0 or q0 + 1
    assert t == 0 || t == -1;
    if t == -1 {
      assert num - r * den == rem - den;
    }
  }
}
