/** Peak and off-peak tracking on the smoothed count (app.py:2272-2281):
    `peak_count` starts at 0 and `offpeak_count` at +inf; each detection
    result runs both strict comparisons, independently. */
module Peaks {

  import opened Types

  datatype PeakState = PeakState(peakCount: int, peakTimeMs: int, offpeakCount: Bound, offpeakTimeMs: int)

  /** The values set by __init__ and by every reset (app.py:118-121). */
  const Initial := PeakState(0, 0, Infinity, 0)

  /** `count < offpeak_count` with +inf above every integer. */
  predicate Below(count: int, b: Bound)
  {
    b.Infinity? || count < b.n
  }

  /** One observation of a smoothed count at a video time. */
  function Observe(s: PeakState, x: Sample): (r: PeakState)
    ensures r.peakCount >= s.peakCount && r.peakCount >= x.count
    ensures r.peakCount == s.peakCount || r.peakCount == x.count
    ensures r.peakCount == s.peakCount ==> r.peakTimeMs == s.peakTimeMs
    ensures x.count > 0 ==> r.offpeakCount.Finite? && r.offpeakCount.n <= x.count
    ensures x.count <= 0 ==> r.offpeakCount == s.offpeakCount && r.offpeakTimeMs == s.offpeakTimeMs
  {
    var s1 := if x.count > s.peakCount then s.(peakCount := x.count, peakTimeMs := x.timeMs) else s;
    if x.count > 0 && Below(x.count, s1.offpeakCount)
    then s1.(offpeakCount := Finite(x.count), offpeakTimeMs := x.timeMs)
    else s1
  }

  /** The state after observing obs, in order, from the initial state. */
  function ObserveAll(obs: seq<Sample>): PeakState
  {
    if obs == [] then Initial else Observe(ObserveAll(obs[..|obs| - 1]), obs[|obs| - 1])
  }

  /** peak_count is the largest count seen (never below 0), and its time is
      that of the FIRST observation that reached it; a peak of 0 keeps time 0. */
  lemma {:induction false} PeakIsFirstMaximum(obs: seq<Sample>)
    ensures var p := ObserveAll(obs);
      && p.peakCount >= 0
      && (forall i :: 0 <= i < |obs| ==> obs[i].count <= p.peakCount)
      && (p.peakCount == 0 ==> p.peakTimeMs == 0)
      && (p.peakCount > 0 ==>
            exists i :: 0 <= i < |obs| && obs[i].count == p.peakCount && obs[i].timeMs == p.peakTimeMs
                        && forall j :: 0 <= j < i ==> obs[j].count < p.peakCount)
  {
    if obs != [] {
      var pre, x := obs[..|obs| - 1], obs[|obs| - 1];
      PeakIsFirstMaximum(pre);
      var p0, p := ObserveAll(pre), ObserveAll(obs);
      assert forall i :: 0 <= i < |pre| ==> obs[i] == pre[i];
      if x.count > p0.peakCount {
        assert obs[|pre|] == x;
      } else if p.peakCount > 0 {
        var i :| 0 <= i < |pre| && pre[i].count == p0.peakCount && pre[i].timeMs == p0.peakTimeMs
                 && forall j :: 0 <= j < i ==> pre[j].count < p0.peakCount;
        assert obs[i] == pre[i];
      }
    }
  }

  /** offpeak_count stays +inf until a positive count is seen; after that
      it is the smallest POSITIVE count seen (zero is never recorded), with
      the time of the first observation that reached it. */
  lemma {:induction false} OffpeakIsFirstPositiveMinimum(obs: seq<Sample>)
    ensures var p := ObserveAll(obs);
      && (p.offpeakCount.Infinity? <==> forall i :: 0 <= i < |obs| ==> obs[i].count <= 0)
      && (p.offpeakCount.Infinity? ==> p.offpeakTimeMs == 0)
      && (p.offpeakCount.Finite? ==>
            && p.offpeakCount.n > 0
            && (forall i :: 0 <= i < |obs| && obs[i].count > 0 ==> p.offpeakCount.n <= obs[i].count)
            && exists i :: 0 <= i < |obs| && obs[i].count == p.offpeakCount.n && obs[i].timeMs == p.offpeakTimeMs
                           && forall j :: 0 <= j < i ==> obs[j].count <= 0 || obs[j].count > p.offpeakCount.n)
  {
    if obs != [] {
      var pre, x := obs[..|obs| - 1], obs[|obs| - 1];
      OffpeakIsFirstPositiveMinimum(pre);
      var p0, p := ObserveAll(pre), ObserveAll(obs);
      assert forall i :: 0 <= i < |pre| ==> obs[i] == pre[i];
      assert obs[|pre|] == x;
      assert p.offpeakCount == p0.offpeakCount || p.offpeakCount == Finite(x.count);
      if x.count > 0 && Below(x.count, p0.offpeakCount) {
        assert p.offpeakCount == Finite(x.count) && p.offpeakTimeMs == x.timeMs;
        forall j | 0 <= j < |pre| ensures obs[j].count <= 0 || obs[j].count > x.count {
          assert obs[j] == pre[j];
        }
      } else if p0.offpeakCount.Finite? {
        var n := p0.offpeakCount.n;
        var i :| 0 <= i < |pre| && pre[i].count == n && pre[i].timeMs == p0.offpeakTimeMs
                 && forall j :: 0 <= j < i ==> pre[j].count <= 0 || pre[j].count > n;
        assert obs[i] == pre[i];
      }
    }
  }

  /** A session in which nobody is ever counted leaves both trackers at
      their initial values: peak 0 and off-peak +inf. */
  lemma NoPeopleKeepsInitial(obs: seq<Sample>)
    requires forall i :: 0 <= i < |obs| ==> obs[i].count == 0
    ensures ObserveAll(obs) == Initial
  {
    PeakIsFirstMaximum(obs);
    OffpeakIsFirstPositiveMinimum(obs);
  }

  /** The checks are not exclusive: the first positive count sets the peak
      and the off-peak at once. */
  lemma FirstPositiveSetsBoth(c: int, t: int)
    requires c > 0
    ensures ObserveAll([Sample(c, t)]) == PeakState(c, t, Finite(c), t)
  {
    assert [Sample(c, t)][..0] == [];
  }

  /** The two comparisons as display_detection_results runs them
      (app.py:2272-2281), one field update at a time. */
  method UpdatePeaks(s: PeakState, x: Sample) returns (r: PeakState)
    ensures r == Observe(s, x)
  {
    r := s;
    if x.count > r.peakCount {
      r := r.(peakCount := x.count, peakTimeMs := x.timeMs);
    }
    if x.count > 0 && Below(x.count, r.offpeakCount) {
      r := r.(offpeakCount := Finite(x.count), offpeakTimeMs := x.timeMs);
    }
  }

  /** One more observation is one more step of the fold. */
  lemma ObserveAllSnoc(obs: seq<Sample>, x: Sample)
    ensures ObserveAll(obs + [x]) == Observe(ObserveAll(obs), x)
  {
    assert (obs + [x])[..|obs|] == obs;
  }
}
