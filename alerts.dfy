/** The two-state crowd alert of app.py: `threshold_alert_active` is driven
    by `smoothed_people_count > crowd_size_threshold` (strict), changes are
    edge-triggered, and every Normal -> Alert transition appends one record
    to the append-only `threshold_history`. */
module Alerts {

  import opened Types
  import TimeFormat

  /** {'timestamp': ..., 'count': ..., 'threshold': ...} (app.py:1113-1117). */
  datatype AlertRecord = AlertRecord(timestamp: string, count: int, threshold: int)

  datatype AlertState = AlertState(active: bool, log: seq<AlertRecord>)

  /** update_crowd_alert_status(alert_active, count) (app.py:1078-1118) as
      evidently intended: the timestamp is format_time_for_filename of the
      current video time. */
  function UpdateStatus(s: AlertState, alert: bool, count: int, threshold: int, timeMs: nat): (r: AlertState)
    ensures r.active == alert
    ensures |s.log| <= |r.log| <= |s.log| + 1 && r.log[..|s.log|] == s.log
  {
    if s.active == alert then s
    else if alert then AlertState(true, s.log + [AlertRecord(TimeFormat.FilenameStamp(timeMs), count, threshold)])
    else AlertState(false, s.log)
  }

  /** One call of update_crowd_alert_status, as each of its callers makes
      it (the settings handlers, restart, load and stop all pass False
      directly): the flag becomes `alert`; calling with the current state
      changes nothing; lowering the flag logs nothing; raising it appends
      exactly one record, holding the time stamp, the count and the
      threshold. */
  lemma UpdateStatusEdgeTriggered(s: AlertState, alert: bool, count: int, threshold: int, timeMs: nat)
    ensures var r := UpdateStatus(s, alert, count, threshold, timeMs);
      && r.active == alert
      && (alert == s.active ==> r == s)
      && (!alert ==> r.log == s.log)
      && (alert && !s.active ==> r.log == s.log + [AlertRecord(TimeFormat.FilenameStamp(timeMs), count, threshold)])
  {
  }

  /** check_threshold_crossing (app.py:2303-2311). */
  function CheckCrossing(s: AlertState, smoothed: int, threshold: int, timeMs: nat): (r: AlertState)
    ensures r.active == (smoothed > threshold)
    ensures !s.active && smoothed > threshold ==>
      |r.log| == |s.log| + 1 && r.log[..|s.log|] == s.log
      && r.log[|s.log|].count == smoothed && r.log[|s.log|].threshold == threshold
    ensures s.active || smoothed <= threshold ==> r.log == s.log
  {
    var should := smoothed > threshold;
    if should != s.active then UpdateStatus(s, should, smoothed, threshold, timeMs) else s
  }

  /** The outcome of a handler that may raise: the state it leaves behind,
      and whether an exception escaped it. */
  datatype Outcome = Completed(state: AlertState) | Raised(state: AlertState)

  /** update_crowd_alert_status AS WRITTEN: format_time_for_filename is a
      function of the class body (app.py:1067, no `self`), but app.py:1112
      calls it as a bare name, which module scope does not define. On a
      Normal -> Alert transition the flag is already set (app.py:1083) when
      the lookup raises NameError, so no record is appended. */
  function UpdateStatusAsWritten(s: AlertState, alert: bool, count: int, threshold: int, timeMs: nat): (o: Outcome)
    ensures o.state.active == alert
    ensures o.Raised? <==> alert && !s.active
  {
    if s.active == alert then Completed(s)
    else if alert then Raised(AlertState(true, s.log))
    else Completed(AlertState(false, s.log))
  }

  /** As written, the alert log can never grow: the first Normal -> Alert
      transition raises before appending. */
  lemma AsWrittenLogNeverGrows(s: AlertState, alert: bool, count: int, threshold: int, timeMs: nat)
    ensures UpdateStatusAsWritten(s, alert, count, threshold, timeMs).state.log == s.log
    ensures !s.active && alert ==> UpdateStatusAsWritten(s, alert, count, threshold, timeMs).Raised?
  {
  }

  /** The discrepancy on a concrete input: with threshold 10, a smoothed
      count of 12 at time 0 raises and logs nothing as written, while the
      intended handler logs exactly one record holding 12 and 10. */
  lemma AsWrittenLosesFirstAlert()
    ensures UpdateStatusAsWritten(AlertState(false, []), true, 12, 10, 0) == Raised(AlertState(true, []))
    ensures var r := UpdateStatus(AlertState(false, []), true, 12, 10, 0);
      r.active && |r.log| == 1 && r.log[0].count == 12 && r.log[0].threshold == 10
  {
  }

  /** The state after checking each sample in turn. */
  function CheckAll(s: AlertState, xs: seq<Sample>, threshold: int): AlertState
    requires forall i :: 0 <= i < |xs| ==> xs[i].timeMs >= 0
    decreases xs
  {
    if xs == [] then s
    else CheckAll(CheckCrossing(s, xs[0].count, threshold, xs[0].timeMs), xs[1..], threshold)
  }

  /** How many samples cross the threshold upward, starting from `active`. */
  function RisingEdges(active: bool, xs: seq<Sample>, threshold: int): nat
    decreases xs
  {
    if xs == [] then 0
    else
      var should := xs[0].count > threshold;
      (if should && !active then 1 else 0) + RisingEdges(should, xs[1..], threshold)
  }

  /** Edge triggering over a whole run: the log only grows, by exactly one
      record per upward crossing, each holding a count above the threshold
      in force; the final state is whether the last sample was above it. */
  lemma {:induction false} CheckAllLogsRisingEdges(s: AlertState, xs: seq<Sample>, threshold: int)
    requires forall i :: 0 <= i < |xs| ==> xs[i].timeMs >= 0
    ensures var r := CheckAll(s, xs, threshold);
      && |r.log| == |s.log| + RisingEdges(s.active, xs, threshold)
      && r.log[..|s.log|] == s.log
      && (forall k :: |s.log| <= k < |r.log| ==> r.log[k].count > threshold && r.log[k].threshold == threshold)
      && r.active == (if xs == [] then s.active else xs[|xs| - 1].count > threshold)
    decreases xs
  {
    if xs != [] {
      var s' := CheckCrossing(s, xs[0].count, threshold, xs[0].timeMs);
      var rest := xs[1..];
      assert forall i :: 0 <= i < |rest| ==> rest[i].timeMs >= 0;
      CheckAllLogsRisingEdges(s', rest, threshold);
      var r := CheckAll(s', rest, threshold);
      assert r == CheckAll(s, xs, threshold);
      assert r.log[..|s'.log|] == s'.log;
      assert r.log[..|s.log|] == s'.log[..|s.log|];
      forall k | |s.log| <= k < |r.log|
        ensures r.log[k].count > threshold && r.log[k].threshold == threshold
      {
        if k < |s'.log| {
          assert r.log[k] == s'.log[k];
        }
      }
      if rest != [] {
        assert rest[|rest| - 1] == xs[|xs| - 1];
      }
    }
  }

  /** threshold 10 and smoothed counts 5, 12, 15, 8, 20 at any video
      times: exactly two records, for 12 and for 20, not three. */
  lemma EdgeTriggerExample(t0: nat, t1: nat, t2: nat, t3: nat, t4: nat)
    ensures var xs := [Sample(5, t0), Sample(12, t1), Sample(15, t2), Sample(8, t3), Sample(20, t4)];
      var r := CheckAll(AlertState(false, []), xs, 10);
      |r.log| == 2 && r.log[0].count == 12 && r.log[1].count == 20 && r.active
  {
    var xs := [Sample(5, t0), Sample(12, t1), Sample(15, t2), Sample(8, t3), Sample(20, t4)];
    var s0 := AlertState(false, []);
    var s2 := AlertState(true, [AlertRecord(TimeFormat.FilenameStamp(t1), 12, 10)]);
    var s4 := AlertState(false, s2.log);
    var s5 := AlertState(true, s2.log + [AlertRecord(TimeFormat.FilenameStamp(t4), 20, 10)]);
    assert forall i :: 0 <= i < |xs| ==> xs[i].timeMs >= 0;
    ExampleSteps(s0, s2, s4, s5, t0, t1, t2, t3, t4);
    CheckAllStep(s0, xs, 0, 10);
    CheckAllStep(s0, xs, 1, 10);
    CheckAllStep(s2, xs, 2, 10);
    CheckAllStep(s2, xs, 3, 10);
    CheckAllStep(s4, xs, 4, 10);
    assert xs[5..] == [];
    assert xs[0..] == xs;
  }

  /** One step of the fold, on the suffix from k. */
  lemma CheckAllStep(s: AlertState, xs: seq<Sample>, k: nat, threshold: int)
    requires k < |xs| && forall i :: 0 <= i < |xs| ==> xs[i].timeMs >= 0
    ensures CheckAll(s, xs[k..], threshold) == CheckAll(CheckCrossing(s, xs[k].count, threshold, xs[k].timeMs), xs[k + 1..], threshold)
  {
    assert xs[k..][1..] == xs[k + 1..];
  }

  lemma ExampleSteps(s0: AlertState, s2: AlertState, s4: AlertState, s5: AlertState,
                     t0: nat, t1: nat, t2: nat, t3: nat, t4: nat)
    requires s0 == AlertState(false, [])
    requires s2 == AlertState(true, [AlertRecord(TimeFormat.FilenameStamp(t1), 12, 10)])
    requires s4 == AlertState(false, s2.log)
    requires s5 == AlertState(true, s2.log + [AlertRecord(TimeFormat.FilenameStamp(t4), 20, 10)])
    ensures CheckCrossing(s0, 5, 10, t0) == s0
    ensures CheckCrossing(s0, 12, 10, t1) == s2
    ensures CheckCrossing(s2, 15, 10, t2) == s2
    ensures CheckCrossing(s2, 8, 10, t3) == s4
    ensures CheckCrossing(s4, 20, 10, t4) == s5
  {
  }
}
