/** The main window of app.py (class CrowdSenseApp) as far as it keeps
    session state: the count smoother, the peak trackers, the crowd alert,
    the heatmap accumulators, the video clock and the graph series, and the
    handlers that update or reset them.

    The window's fields are kept in groups that follow __init__
    (app.py:80-123). Every handler is specified by a pure transition on the
    snapshot AppState; the class methods perform the handler's updates in
    the source's order and are proved to land on that transition, and the
    lemmas at the end relate the transitions to each other and to the
    initial state. */
module CrowdApp {

  import opened Types
  import opened Numeric
  import opened Smoothing
  import opened Peaks
  import opened Alerts
  import opened Heatmap
  import opened Timeline
  import opened Threads

  /** The defaults of __init__ (app.py:88, 94, 116). */
  const DefaultWindow := 24
  const DefaultCrowdThreshold := 10

  /** The capture and what the window shows of it: `capOpen` stands for
      "self.cap is not None and self.cap.isOpened()", `endLabelVisible` for
      the end of playback label, `clock` for video_time_ms with
      last_frame_time. */
  datatype Video = Video(capOpen: bool, paused: bool, endLabelVisible: bool,
                         currentFrame: Option<Frame>, lastBoxes: seq<Box>,
                         clock: ClockState, frameInterval: int)

  /** smoothing_window_size, people_count_history and smoothed_people_count. */
  datatype Counting = Counting(windowSize: nat, history: seq<int>, smoothed: int)

  /** heatmap_enabled with the two accumulators and aggregate_frame_count. */
  datatype HeatLayer = HeatLayer(enabled: bool, acc: HeatState)

  /** crowd_detection_enabled, crowd_size_threshold, and
      threshold_alert_active with threshold_history. */
  datatype CrowdWatch = CrowdWatch(enabled: bool, threshold: int, alert: AlertState)

  /** time_data (seconds) and people_data. */
  datatype Graph = Graph(times: seq<real>, counts: seq<int>)

  /** The session fields of CrowdSenseApp; `confidence` is
      confidence_threshold and `peaks` the four peak_* / offpeak_* fields. */
  datatype AppState = AppState(video: Video, counting: Counting, confidence: real, heatmap: HeatLayer,
                               crowd: CrowdWatch, peaks: PeakState, graph: Graph)

  /** A window of at least one sample (the smoothing slider's range is
      1..60, app.py:959) holding at most that many counts, the smoothed
      count being their rounded mean. */
  predicate ValidCounting(c: Counting)
  {
    c.windowSize >= 1 && |c.history| <= c.windowSize && c.smoothed == Smoothed(c.history)
  }

  /** Graph series of one length with strictly increasing times. */
  predicate ValidGraph(g: Graph)
  {
    |g.times| == |g.counts| && StrictlyIncreasing(g.times)
  }

  /** What every handler keeps: the two above, consistent accumulators and
      a non-negative video clock. */
  predicate ValidState(s: AppState)
  {
    && ValidCounting(s.counting)
    && Consistent(s.heatmap.acc)
    && ValidGraph(s.graph)
    && s.video.clock.videoTimeMs >= 0
  }

  /** The state __init__ leaves (app.py:80-123). */
  function InitialState(): AppState
  {
    AppState(Video(false, false, false, None, [], ClockState(0, 0.0), DefaultFrameInterval),
             Counting(DefaultWindow, [], 0), DefaultConfidence, HeatLayer(false, Reset),
             CrowdWatch(false, DefaultCrowdThreshold, AlertState(false, [])), Initial, Graph([], []))
  }

  /** The video time in ms, for the alert log's timestamps. */
  function VideoTime(s: AppState): nat
    requires s.video.clock.videoTimeMs >= 0
  {
    s.video.clock.videoTimeMs
  }

  // ---------------------------------------------------------------------
  // Transitions

  /** update_crowd_alert_status(alert_active, count) with the state's
      threshold and video time. */
  function AlertStatus(s: AppState, alertActive: bool, count: int): AppState
    requires s.video.clock.videoTimeMs >= 0
  {
    s.(crowd := s.crowd.(alert := UpdateStatus(s.crowd.alert, alertActive, count, s.crowd.threshold, VideoTime(s))))
  }

  /** check_threshold_crossing (app.py:2303-2311) on the smoothed count. */
  function ThresholdCheck(s: AppState): AppState
    requires s.video.clock.videoTimeMs >= 0
  {
    s.(crowd := s.crowd.(alert := CheckCrossing(s.crowd.alert, s.counting.smoothed, s.crowd.threshold, VideoTime(s))))
  }

  /** Whether update_people_graph records anything (app.py:1537). */
  predicate Playing(v: Video)
  {
    v.capOpen && !v.paused
  }

  /** update_people_graph(count) (app.py:1534-1548) on the data lists. */
  function GraphUpdate(s: AppState, count: int): AppState
    requires |s.graph.times| == |s.graph.counts|
  {
    var g := UpdateGraph(Playing(s.video), s.video.clock.videoTimeMs, s.graph.times, s.graph.counts, count);
    s.(graph := Graph(g.0, g.1))
  }

  /** The accumulator side of process_frame_with_heatmap (app.py:1342-1354):
      update_heatmap runs on a frame only while the heatmap is enabled. */
  function FrameWithHeatmap(s: AppState, p: HeatParams, num: Numerics, frame: Option<Frame>, boxes: seq<Box>): (r: AppState)
    requires Consistent(s.heatmap.acc)
    ensures Consistent(r.heatmap.acc)
    ensures r == s.(heatmap := r.heatmap) && r.heatmap.enabled == s.heatmap.enabled
    ensures frame.None? || !s.heatmap.enabled ==> r == s
    ensures frame.Some? && s.heatmap.enabled ==> r.heatmap.acc == Step(s.heatmap.acc, p, num, frame, boxes).state
  {
    StepKeepsConsistent(s.heatmap.acc, p, num, frame, boxes);
    if frame.None? || !s.heatmap.enabled then s
    else s.(heatmap := s.heatmap.(acc := Step(s.heatmap.acc, p, num, frame, boxes).state))
  }

  /** on_crowd_detection_toggled(enabled) (app.py:1005-1027): disabling
      forces the alert back to Normal without logging; enabling redraws the
      graph point of a playing video. */
  function CrowdToggled(s: AppState, enabled: bool): (r: AppState)
    requires ValidState(s)
    ensures ValidState(r)
    ensures r.crowd.enabled == enabled && r.crowd.threshold == s.crowd.threshold
    ensures r.crowd.alert.log == s.crowd.alert.log
    ensures !enabled ==> !r.crowd.alert.active && r.graph == s.graph
    ensures enabled ==> r.crowd.alert == s.crowd.alert
  {
    var s1 := s.(crowd := s.crowd.(enabled := enabled));
    if !enabled then
      var s2 := AlertStatus(s1, false, 0);
      s2.(crowd := s2.crowd.(alert := s2.crowd.alert.(active := false)))
    else if Playing(s.video) then GraphUpdate(s1, s.counting.smoothed)
    else s1
  }

  /** on_crowd_size_threshold_changed(value) (app.py:1030-1037): the new
      threshold is stored and the alert forced to Normal, whatever the
      count. */
  function ThresholdChanged(s: AppState, value: int): (r: AppState)
    requires ValidState(s)
    ensures ValidState(r)
    ensures r.crowd.threshold == value && r.crowd.enabled == s.crowd.enabled
    ensures !r.crowd.alert.active && r.crowd.alert.log == s.crowd.alert.log
  {
    var s1 := AlertStatus(s.(crowd := s.crowd.(threshold := value)), false, 0);
    if s1.crowd.enabled && Playing(s1.video) then GraphUpdate(s1, s1.counting.smoothed) else s1
  }

  /** on_smoothing_window_changed(value) (app.py:1040-1065). */
  function WindowChanged(s: AppState, value: nat): (r: AppState)
    requires ValidState(s) && value >= 1
    ensures ValidState(r)
    ensures r.counting.windowSize == value && r.counting.history == LastN(s.counting.history, value)
    ensures s.crowd.enabled ==>
      r.crowd.alert == CheckCrossing(s.crowd.alert, r.counting.smoothed, s.crowd.threshold, VideoTime(s))
    ensures !s.crowd.enabled ==> r.crowd == s.crowd
  {
    var h := LastN(s.counting.history, value);
    var s1 := s.(counting := Counting(value, h, if |h| > 0 then Smoothed(h) else 0));
    if s1.crowd.enabled then ThresholdCheck(s1) else s1
  }

  /** on_threshold_changed(value) (app.py:1607-1613): the slider's percent
      as the app's confidence threshold. */
  function ConfidenceChanged(s: AppState, value: int): (r: AppState)
    ensures r.confidence * 100.0 == value as real
    ensures r == s.(confidence := r.confidence)
  {
    s.(confidence := value as real / 100.0)
  }

  /** on_heatmap_toggled(enabled) (app.py:1615-1636): while paused on a
      frame, the frame is processed again with the last boxes, so the
      accumulators take that frame once more. */
  function HeatmapToggled(s: AppState, p: HeatParams, num: Numerics, enabled: bool): (r: AppState)
    requires ValidState(s)
    ensures ValidState(r)
    ensures r.heatmap.enabled == enabled && r == s.(heatmap := r.heatmap)
    ensures !(s.video.paused && s.video.currentFrame.Some? && enabled) ==> r.heatmap.acc == s.heatmap.acc
  {
    var s1 := s.(heatmap := s.heatmap.(enabled := enabled));
    if s.video.paused && s.video.currentFrame.Some? then
      FrameWithHeatmap(s1, p, num, s.video.currentFrame, s.video.lastBoxes)
    else s1
  }

  /** The counting step of display_detection_results (app.py:2240-2254):
      the count enters the bounded history and the smoothed count is
      recomputed; the fallback to the raw count is for an empty history,
      which a window of at least one sample never leaves. */
  function CountStep(c: Counting, count: int): (r: Counting)
    requires ValidCounting(c)
    ensures ValidCounting(r) && r.windowSize == c.windowSize
    ensures r.history == LastN(c.history + [count], c.windowSize)
    ensures |r.history| > 0 && r.history[|r.history| - 1] == count
  {
    var h := DequeAppend(c.history, c.windowSize, count);
    Counting(c.windowSize, h, if |h| > 0 then Smoothed(h) else count)
  }

  /** The peak trackers' step on the smoothed count (app.py:2272-2281). */
  function PeakStep(s: AppState): AppState
  {
    s.(peaks := Observe(s.peaks, Sample(s.counting.smoothed, s.video.clock.videoTimeMs)))
  }

  /** The part of display_detection_results before the overlay
      (app.py:2236-2281): boxes kept, count smoothed, alert checked while
      crowd detection is on, graph point recorded, peaks observed. */
  function Counted(s: AppState, count: int, boxes: seq<Box>): (r: AppState)
    requires ValidState(s)
    ensures ValidState(r) && r.heatmap == s.heatmap && r.confidence == s.confidence
    ensures r.counting == CountStep(s.counting, count) && r.video == s.video.(lastBoxes := boxes)
    ensures r.peaks == Observe(s.peaks, Sample(r.counting.smoothed, s.video.clock.videoTimeMs))
    ensures s.crowd.enabled ==>
      r.crowd.alert == CheckCrossing(s.crowd.alert, r.counting.smoothed, s.crowd.threshold, VideoTime(s))
    ensures !s.crowd.enabled ==> r.crowd == s.crowd
    ensures !Playing(s.video) ==> r.graph == s.graph
  {
    var s1 := s.(video := s.video.(lastBoxes := boxes), counting := CountStep(s.counting, count));
    var s2 := if s1.crowd.enabled then ThresholdCheck(s1) else s1;
    PeakStep(GraphUpdate(s2, s2.counting.smoothed))
  }

  /** display_detection_results(frame, people_count, boxes)
      (app.py:2232-2301). */
  function Detected(s: AppState, p: HeatParams, num: Numerics, frame: Option<Frame>, count: int, boxes: seq<Box>): (r: AppState)
    requires ValidState(s)
    ensures ValidState(r)
    ensures frame.None? ==> r == s
    ensures frame.Some? ==> r.counting == CountStep(s.counting, count) && r.video == s.video.(lastBoxes := boxes)
    ensures frame.Some? ==> r.peaks == Observe(s.peaks, Sample(r.counting.smoothed, s.video.clock.videoTimeMs))
    ensures frame.Some? && s.crowd.enabled ==>
      r.crowd.alert == CheckCrossing(s.crowd.alert, r.counting.smoothed, s.crowd.threshold, VideoTime(s))
    ensures !s.crowd.enabled ==> r.crowd == s.crowd
    ensures !Playing(s.video) ==> r.graph == s.graph
    ensures r.confidence == s.confidence && r.heatmap.enabled == s.heatmap.enabled
  {
    if frame.None? then s else FrameWithHeatmap(Counted(s, count, boxes), p, num, frame, boxes)
  }

  /** The timer block of process_video_frame (app.py:2156-2166). */
  function ClockStep(s: AppState, now: real): AppState
  {
    if !s.video.paused then s.(video := s.video.(clock := Tick(s.video.clock, now, s.video.frameInterval))) else s
  }

  /** process_video_frame(frame) (app.py:2150-2185): the clock advances
      for an unpaused frame, the frame is kept, and without a ready
      detector the accumulators take it with no boxes. */
  function VideoFrame(s: AppState, p: HeatParams, num: Numerics, frame: Option<Frame>, now: real, detectorReady: bool): (r: AppState)
    requires ValidState(s)
    ensures ValidState(r)
    ensures frame.None? ==> r == s
    ensures frame.Some? ==> r.video.currentFrame == frame && r.video.lastBoxes == s.video.lastBoxes
    ensures frame.Some? && !s.video.paused ==> r.video.clock == Tick(s.video.clock, now, s.video.frameInterval)
    ensures s.video.paused ==> r.video.clock == s.video.clock
    ensures detectorReady ==> r.heatmap == s.heatmap
    ensures r.crowd == s.crowd && r.peaks == s.peaks && r.counting == s.counting && r.graph == s.graph
  {
    if frame.None? then s
    else
      var s1 := ClockStep(s, now);
      var s2 := s1.(video := s1.video.(currentFrame := frame));
      if detectorReady then s2 else FrameWithHeatmap(s2, p, num, frame, [])
  }

  /** pause_video (app.py:1971-1989): toggles pause on an open video;
      resuming hides the end label and restarts the clock's baseline. */
  function PauseToggled(s: AppState, now: real): (r: AppState)
    requires ValidState(s)
    ensures ValidState(r)
    ensures s.video.capOpen ==> r.video.paused == !s.video.paused
    ensures !s.video.capOpen ==> r == s
    ensures r.video.clock.videoTimeMs == s.video.clock.videoTimeMs
    ensures r == s.(video := r.video)
  {
    if !s.video.capOpen then s
    else if !s.video.paused then s.(video := s.video.(paused := true))
    else s.(video := s.video.(paused := false, endLabelVisible := false, clock := s.video.clock.(lastFrameTime := now)))
  }

  /** on_video_ended (app.py:2113-2129). */
  function VideoEnded(s: AppState): (r: AppState)
    ensures r.video.paused && r.video.endLabelVisible
    ensures r.video.capOpen == s.video.capOpen && r.video.clock == s.video.clock
    ensures r.counting == s.counting && r.crowd == s.crowd && r.heatmap == s.heatmap
    ensures r.peaks == s.peaks && r.graph == s.graph
    ensures ValidState(s) ==> ValidState(r)
  {
    s.(video := s.video.(paused := true, endLabelVisible := true))
  }

  /** The state stop_video leaves (app.py:1992-2111): the capture released,
      every session value cleared, the alert log emptied, both overlays
      switched off; the window size, the two thresholds and the frame
      interval are kept. */
  function Stopped(s: AppState): (r: AppState)
    ensures s.counting.windowSize >= 1 ==> ValidState(r)
    ensures !r.video.capOpen && r.video.currentFrame.None? && r.crowd.alert == AlertState(false, [])
    ensures r.counting.history == [] && r.peaks == Initial && r.graph == Graph([], []) && r.heatmap == HeatLayer(false, Reset)
    ensures r.counting.windowSize == s.counting.windowSize && r.crowd.threshold == s.crowd.threshold
    ensures r.confidence == s.confidence && r.video.frameInterval == s.video.frameInterval
  {
    ResetIsConsistent();
    AppState(Video(false, false, false, None, [], ClockState(0, 0.0), s.video.frameInterval),
             Counting(s.counting.windowSize, [], 0), s.confidence, HeatLayer(false, Reset),
             CrowdWatch(false, s.crowd.threshold, AlertState(false, [])), Initial, Graph([], []))
  }

  /** load_video_from_path (app.py:1819-1933): always stops first; when
      the file exists and opens, the session restarts with a fresh clock
      baseline and the video's frame interval, playing. */
  function Loaded(s: AppState, exists_: bool, opens: bool, fps: real, now: real): (r: AppState)
    ensures r.video.capOpen <==> exists_ && opens
    ensures r.crowd.alert == AlertState(false, []) && r.peaks == Initial && r.graph == Graph([], [])
    ensures exists_ && opens ==> r.video.clock == ClockState(0, now) && !r.video.paused
  {
    var s1 := Stopped(s);
    if !exists_ || !opens then s1
    else s1.(video := s1.video.(capOpen := true, clock := ClockState(0, now), frameInterval := FrameInterval(fps)))
  }

  /** The session restarted from the first frame's kept boxes
      (app.py:1238-1255): the history holds that one count, which is also
      the smoothed count, and the alert is checked against it while crowd
      detection is on. */
  function Reseeded(s: AppState, boxes: seq<Box>): (r: AppState)
    requires ValidState(s)
    ensures ValidState(r) && r.heatmap == s.heatmap && r.peaks == s.peaks
    ensures r.crowd.enabled == s.crowd.enabled && r.crowd.threshold == s.crowd.threshold
    ensures r.video == s.video.(lastBoxes := boxes)
    ensures r.counting == Counting(s.counting.windowSize, [|boxes|], |boxes|)
    ensures |s.crowd.alert.log| <= |r.crowd.alert.log| <= |s.crowd.alert.log| + 1
    ensures r.crowd.alert.log[..|s.crowd.alert.log|] == s.crowd.alert.log
  {
    var c := |boxes|;
    var s1 := s.(video := s.video.(lastBoxes := boxes), counting := Counting(s.counting.windowSize, [c], c));
    var s2 := GraphUpdate(s1, c);
    var r := if s2.crowd.enabled then ThresholdCheck(s2) else s2;
    assert r.crowd.alert.log[..|s.crowd.alert.log|] == s.crowd.alert.log;
    r
  }

  /** The first-frame detection of restart_video (app.py:1226-1264) on the
      already reset state: with a ready detector and a successful
      inference the history restarts from that frame's count; a failing
      inference leaves everything as it was; without a detector no boxes
      are kept. */
  function FirstFrameDetected(s: AppState, p: HeatParams, num: Numerics, frame: Frame, detectorReady: bool,
                              results: Option<seq<seq<Detection>>>): (r: AppState)
    requires ValidState(s)
    ensures ValidState(r)
    ensures r.peaks == s.peaks && r.crowd.enabled == s.crowd.enabled && r.crowd.threshold == s.crowd.threshold
    ensures r.video == s.video.(lastBoxes := r.video.lastBoxes) && r.heatmap.enabled == s.heatmap.enabled
    ensures |s.crowd.alert.log| <= |r.crowd.alert.log| <= |s.crowd.alert.log| + 1
    ensures r.crowd.alert.log[..|s.crowd.alert.log|] == s.crowd.alert.log
    ensures detectorReady && results.Some? ==>
      var boxes := Kept(Flatten(results.value), s.confidence);
      r.counting == Counting(s.counting.windowSize, [|boxes|], |boxes|) && r.video.lastBoxes == boxes
    ensures !detectorReady ==> r == s.(video := s.video.(lastBoxes := []))
    ensures detectorReady && results.None? ==> r == s
  {
    if !detectorReady then s.(video := s.video.(lastBoxes := []))
    else if results.None? then s
    else
      var boxes := Kept(Flatten(results.value), s.confidence);
      FrameWithHeatmap(Reseeded(s, boxes), p, num, Some(frame), boxes)
  }

  /** What restart_video resets before reading the first frame again
      (app.py:1153-1219): the clock restarts at the wall-clock time `now`,
      the graph, the accumulators and the peaks are cleared and the alert
      flag is lowered; threshold_history is kept. */
  function RestartReset(s: AppState, now: real): (r: AppState)
    requires ValidState(s)
    ensures ValidState(r)
    ensures r.graph == Graph([], []) && r.heatmap == s.heatmap.(acc := Reset) && r.peaks == Initial
    ensures r.crowd == s.crowd.(alert := AlertState(false, s.crowd.alert.log))
    ensures r.video.clock == ClockState(0, now) && r.video.paused && !r.video.endLabelVisible
    ensures r.video.capOpen == s.video.capOpen && r.video.currentFrame == s.video.currentFrame
    ensures r.counting == s.counting && r.confidence == s.confidence
  {
    ResetIsConsistent();
    s.(video := s.video.(endLabelVisible := false, paused := true, clock := ClockState(0, now)),
       graph := Graph([], []), heatmap := s.heatmap.(acc := Reset),
       crowd := s.crowd.(alert := AlertState(false, s.crowd.alert.log)), peaks := Initial)
  }

  /** Whether restart_video starts the reader thread again (app.py:1287). */
  function RestartsThread(s: AppState, threadRunning: bool, firstFrame: Option<Frame>): bool
  {
    s.video.capOpen && firstFrame.Some? && (threadRunning || s.video.endLabelVisible)
  }

  /** restart_video (app.py:1145-1312) given whether the reader thread was
      running, the wall clock, the first frame read back (None when the
      read fails) and the detector: after a successful read the video is
      paused unless the thread restarts, and then it plays if it was
      playing or had reached its end. */
  function Restarted(s: AppState, p: HeatParams, num: Numerics, threadRunning: bool, now: real,
                     firstFrame: Option<Frame>, detectorReady: bool, results: Option<seq<seq<Detection>>>): (r: AppState)
    requires ValidState(s)
    ensures ValidState(r)
  {
    if !s.video.capOpen then s
    else
      var s1 := RestartReset(s, now);
      if firstFrame.None? then Stopped(s1)
      else AfterFirstRead(s1, p, num, firstFrame.value, detectorReady, results, PausedAfterRestart(s.video, threadRunning))
  }

  /** restart_video once the first frame has been read back
      (app.py:1222-1300): the frame is shown, detected on, and the pause
      flag set. */
  function AfterFirstRead(s: AppState, p: HeatParams, num: Numerics, frame: Frame, detectorReady: bool,
                          results: Option<seq<seq<Detection>>>, paused: bool): (r: AppState)
    requires ValidState(s)
    ensures ValidState(r)
  {
    var s2 := FirstFrameDetected(s.(video := s.video.(currentFrame := Some(frame))), p, num, frame, detectorReady, results);
    s2.(video := s2.video.(paused := paused))
  }

  /** The pause flag restart_video leaves after a successful read
      (app.py:1287-1300): `was_paused and not video_was_at_end` when the
      reader thread starts again, paused otherwise. */
  function PausedAfterRestart(v: Video, threadRunning: bool): bool
  {
    if threadRunning || v.endLabelVisible then v.paused && !v.endLabelVisible else true
  }

  /** The two branches of update_people_graph's series update, written
      as the in-place edits the method makes. */
  lemma RecordSampleBranches(times: seq<real>, counts: seq<int>, t: real, c: int)
    requires |times| == |counts|
    ensures times == [] || t > times[|times| - 1] ==> RecordSample(times, counts, t, c) == (times + [t], counts + [c])
    ensures !(times == [] || t > times[|times| - 1]) ==> RecordSample(times, counts, t, c) == (times, counts[|counts| - 1 := c])
  {
    if !(times == [] || t > times[|times| - 1]) {
      assert counts[|counts| - 1 := c] == counts[..|counts| - 1] + [c];
    }
  }

  /** Counted as the sequence of steps display_detection_results makes. */
  lemma CountedInSteps(s: AppState, count: int, boxes: seq<Box>, s1: AppState, s2: AppState, s3: AppState)
    requires ValidState(s)
    requires s1 == s.(video := s.video.(lastBoxes := boxes), counting := CountStep(s.counting, count))
    requires s2 == if s1.crowd.enabled then ThresholdCheck(s1) else s1
    requires s3 == GraphUpdate(s2, s2.counting.smoothed)
    ensures Counted(s, count, boxes) == PeakStep(s3)
  {
  }

  /** update_people_graph while playing, as the in-place edit of the
      series the method makes: the state stays valid. */
  lemma GraphUpdateEdit(s: AppState, count: int, g: Graph)
    requires ValidState(s) && Playing(s.video)
    requires var t, times, counts := s.video.clock.videoTimeMs as real / 1000.0, s.graph.times, s.graph.counts;
      g == if times == [] || t > times[|times| - 1] then Graph(times + [t], counts + [count])
           else Graph(times, counts[|counts| - 1 := count])
    ensures GraphUpdate(s, count) == s.(graph := g)
    ensures ValidState(s.(graph := g))
  {
    RecordSampleBranches(s.graph.times, s.graph.counts, s.video.clock.videoTimeMs as real / 1000.0, count);
  }

  // ---------------------------------------------------------------------
  // The window

  class CrowdSenseApp {
    var video: Video
    var counting: Counting
    var confidence: real
    var heatmap: HeatLayer
    var crowd: CrowdWatch
    var peaks: PeakState
    var graph: Graph
    /** The smoothed counts observed since the last reset, with their times. */
    ghost var observed: seq<Sample>

    const params: HeatParams
    const numerics: Numerics

    function State(): AppState
      reads this
    {
      AppState(video, counting, confidence, heatmap, crowd, peaks, graph)
    }

    /** The invariant of the window, and the peak trackers summarising the
        observations since the last reset. */
    ghost predicate Valid()
      reads this
    {
      ValidState(State()) && peaks == ObserveAll(observed)
    }

    /** __init__ (app.py:80-123); `num` stands for np.sqrt, cv2.GaussianBlur
        and cv2.resize. */
    constructor(num: Numerics)
      ensures Valid()
      ensures State() == InitialState() && params == DefaultParams && numerics == num && observed == []
    {
      video := Video(false, false, false, None, [], ClockState(0, 0.0), DefaultFrameInterval);
      counting := Counting(DefaultWindow, [], 0);
      confidence := DefaultConfidence;
      heatmap := HeatLayer(false, Reset);
      crowd := CrowdWatch(false, DefaultCrowdThreshold, AlertState(false, []));
      peaks, observed := Initial, [];
      graph := Graph([], []);
      params := DefaultParams;
      numerics := num;
    }

    /** update_crowd_alert_status (app.py:1078-1118), as intended. */
    method UpdateCrowdAlertStatus(alertActive: bool, count: int)
      requires Valid()
      modifies this
      ensures Valid() && observed == old(observed)
      ensures State() == AlertStatus(old(State()), alertActive, count)
    {
      if crowd.alert.active == alertActive {
        return;
      }
      if alertActive {
        var record := AlertRecord(TimeFormat.FilenameStamp(video.clock.videoTimeMs), count, crowd.threshold);
        crowd := crowd.(alert := AlertState(true, crowd.alert.log + [record]));
      } else {
        crowd := crowd.(alert := AlertState(false, crowd.alert.log));
      }
    }

    /** check_threshold_crossing (app.py:2303-2311). */
    method CheckThresholdCrossing()
      requires Valid()
      modifies this
      ensures Valid() && observed == old(observed)
      ensures State() == ThresholdCheck(old(State()))
    {
      var shouldAlert := counting.smoothed > crowd.threshold;
      if shouldAlert != crowd.alert.active {
        UpdateCrowdAlertStatus(shouldAlert, counting.smoothed);
      }
    }

    /** update_people_graph (app.py:1534-1548): appends a point or
        overwrites the last count in place. */
    method UpdatePeopleGraph(count: int)
      requires Valid()
      modifies this
      ensures Valid() && observed == old(observed)
      ensures State() == GraphUpdate(old(State()), count)
    {
      ghost var s0 := State();
      if !video.capOpen || video.paused {
        assert GraphUpdate(s0, count) == s0;
        return;
      }
      var t := video.clock.videoTimeMs as real / 1000.0;
      var times, counts := graph.times, graph.counts;
      var g;
      if times == [] || t > times[|times| - 1] {
        g := Graph(times + [t], counts + [count]);
      } else {
        counts := counts[|counts| - 1 := count];
        g := Graph(times, counts);
      }
      GraphUpdateEdit(s0, count, g);
      graph := g;
    }

    /** update_heatmap(frame, boxes) (app.py:1418-1531) on the window's
        accumulators, with the window's parameters and numerics. */
    method UpdateHeatmap(frame: Option<Frame>, boxes: seq<Box>) returns (overlay: Option<Grid>)
      requires Valid()
      modifies this
      ensures Valid() && observed == old(observed)
      ensures State() == old(State()).(heatmap := old(heatmap).(acc := Step(old(heatmap.acc), params, numerics, frame, boxes).state))
      ensures overlay == Step(old(heatmap.acc), params, numerics, frame, boxes).overlay
    {
      ghost var s0 := State();
      StepKeepsConsistent(heatmap.acc, params, numerics, frame, boxes);
      var r := ComputeHeatmap(heatmap.acc, params, numerics, frame, boxes);
      heatmap := heatmap.(acc := r.state);
      overlay := r.overlay;
      assert State() == s0.(heatmap := s0.heatmap.(acc := r.state));
    }

    /** The accumulator side of process_frame_with_heatmap (app.py:1342-1354). */
    method ProcessFrameWithHeatmap(frame: Option<Frame>, boxes: seq<Box>) returns (overlay: Option<Grid>)
      requires Valid()
      modifies this
      ensures Valid() && observed == old(observed)
      ensures State() == FrameWithHeatmap(old(State()), params, numerics, frame, boxes)
      ensures overlay.Some? ==> frame.Some? && heatmap.enabled
    {
      overlay := None;
      if frame.None? {
        return;
      }
      if heatmap.enabled {
        overlay := UpdateHeatmap(frame, boxes);
      }
    }

    /** on_crowd_detection_toggled (app.py:1005-1027). */
    method OnCrowdDetectionToggled(enabled: bool)
      requires Valid()
      modifies this
      ensures Valid() && observed == old(observed)
      ensures State() == CrowdToggled(old(State()), enabled)
    {
      crowd := crowd.(enabled := enabled);
      if !enabled {
        UpdateCrowdAlertStatus(false, 0);
        crowd := crowd.(alert := crowd.alert.(active := false));
      } else if video.capOpen && !video.paused {
        UpdatePeopleGraph(counting.smoothed);
      }
    }

    /** on_crowd_size_threshold_changed (app.py:1030-1037). */
    method OnCrowdSizeThresholdChanged(value: int)
      requires Valid()
      modifies this
      ensures Valid() && observed == old(observed)
      ensures State() == ThresholdChanged(old(State()), value)
    {
      crowd := crowd.(threshold := value);
      UpdateCrowdAlertStatus(false, 0);
      if crowd.enabled && video.capOpen && !video.paused {
        UpdatePeopleGraph(counting.smoothed);
      }
    }

    /** on_smoothing_window_changed (app.py:1040-1065); the slider keeps
        the value in 1..60. */
    method OnSmoothingWindowChanged(value: nat)
      requires Valid() && value >= 1
      modifies this
      ensures Valid() && observed == old(observed)
      ensures State() == WindowChanged(old(State()), value)
    {
      ghost var s0 := State();
      var h := RebuildWindow(counting.history, value);
      var smoothedCount := 0;
      if |h| > 0 {
        smoothedCount := Smoothed(h);
      }
      counting := Counting(value, h, smoothedCount);
      assert State() == s0.(counting := Counting(value, LastN(s0.counting.history, value), Smoothed(h)));
      if crowd.enabled {
        CheckThresholdCrossing();
      }
    }

    /** on_threshold_changed (app.py:1607-1613): the detector thread gets
        the same threshold. */
    method OnThresholdChanged(value: int, yolo: YoloDetectionThread)
      requires Valid()
      modifies this, yolo
      ensures Valid() && observed == old(observed)
      ensures State() == ConfidenceChanged(old(State()), value)
      ensures yolo.confidenceThreshold == confidence
      ensures yolo.frameQueue == old(yolo.frameQueue) && yolo.model == old(yolo.model)
      ensures yolo.modelPath == old(yolo.modelPath) && yolo.processing == old(yolo.processing)
      ensures yolo.running == old(yolo.running) && yolo.modelPath == old(yolo.modelPath) && yolo.loadingModel == old(yolo.loadingModel)
    {
      confidence := value as real / 100.0;
      yolo.SetConfidenceThreshold(confidence);
    }

    /** on_heatmap_toggled (app.py:1615-1636). */
    method OnHeatmapToggled(enabled: bool)
      requires Valid()
      modifies this
      ensures Valid() && observed == old(observed)
      ensures State() == HeatmapToggled(old(State()), params, numerics, enabled)
    {
      heatmap := heatmap.(enabled := enabled);
      if video.paused && video.currentFrame.Some? {
        var overlay := ProcessFrameWithHeatmap(video.currentFrame, video.lastBoxes);
      }
    }

    /** display_detection_results (app.py:2232-2301). */
    method DisplayDetectionResults(frame: Option<Frame>, count: int, boxes: seq<Box>) returns (overlay: Option<Grid>)
      requires Valid()
      modifies this
      ensures Valid()
      ensures State() == Detected(old(State()), params, numerics, frame, count, boxes)
      ensures frame.None? ==> observed == old(observed)
      ensures frame.Some? ==> observed == old(observed) + [Sample(counting.smoothed, video.clock.videoTimeMs)]
    {
      overlay := None;
      if frame.None? {
        return;
      }
      RecordDetection(count, boxes);
      overlay := ProcessFrameWithHeatmap(frame, boxes);
    }

    /** The part of display_detection_results before the overlay
        (app.py:2236-2281). */
    method RecordDetection(count: int, boxes: seq<Box>)
      requires Valid()
      modifies this
      ensures Valid()
      ensures State() == Counted(old(State()), count, boxes)
      ensures observed == old(observed) + [Sample(counting.smoothed, video.clock.videoTimeMs)]
    {
      ghost var s0 := State();
      video := video.(lastBoxes := boxes);
      var h := DequeAppend(counting.history, counting.windowSize, count);
      var newSmoothed := if |h| > 0 then Smoothed(h) else count;
      counting := Counting(counting.windowSize, h, newSmoothed);
      ghost var s1 := State();
      assert s1 == s0.(video := s0.video.(lastBoxes := boxes), counting := CountStep(s0.counting, count));
      if crowd.enabled {
        CheckThresholdCrossing();
      }
      ghost var s2 := State();
      assert s2 == if s1.crowd.enabled then ThresholdCheck(s1) else s1;
      UpdatePeopleGraph(counting.smoothed);
      ghost var s3 := State();
      assert s3 == GraphUpdate(s2, s2.counting.smoothed);
      CountedInSteps(s0, count, boxes, s1, s2, s3);
      var x := Sample(counting.smoothed, video.clock.videoTimeMs);
      peaks := UpdatePeaks(peaks, x);
      ObserveAllSnoc(observed, x);
      observed := observed + [x];
      assert State() == PeakStep(s3);
    }

    /** process_video_frame (app.py:2150-2185): hands the frame to the
        detector thread when the detector is ready and has a model. */
    method ProcessVideoFrame(frame: Option<Frame>, now: real, yoloReady: bool, yolo: YoloDetectionThread)
        returns (overlay: Option<Grid>)
      requires Valid() && yolo.Valid()
      modifies this, yolo
      ensures Valid() && yolo.Valid() && observed == old(observed)
      ensures State() == VideoFrame(old(State()), params, numerics, frame, now, yoloReady && old(yolo.model).Some?)
      ensures yolo.frameQueue == (if frame.Some? && yoloReady && yolo.model.Some?
                                  then Submit(old(yolo.frameQueue), yolo.processing, frame)
                                  else old(yolo.frameQueue))
      ensures yolo.model == old(yolo.model) && yolo.processing == old(yolo.processing)
      ensures yolo.confidenceThreshold == old(yolo.confidenceThreshold)
      ensures yolo.running == old(yolo.running) && yolo.modelPath == old(yolo.modelPath) && yolo.loadingModel == old(yolo.loadingModel)
    {
      overlay := None;
      if frame.None? {
        return;
      }
      if !video.paused {
        video := video.(clock := Tick(video.clock, now, video.frameInterval));
      }
      video := video.(currentFrame := frame);
      if yoloReady && yolo.model.Some? {
        yolo.AddFrame(frame);
      } else {
        overlay := ProcessFrameWithHeatmap(frame, []);
      }
    }

    /** pause_video (app.py:1971-1989). */
    method PauseVideo(now: real)
      requires Valid()
      modifies this
      ensures Valid() && observed == old(observed)
      ensures State() == PauseToggled(old(State()), now)
    {
      if video.capOpen {
        if !video.paused {
          video := video.(paused := true);
        } else {
          video := video.(paused := false, endLabelVisible := false, clock := video.clock.(lastFrameTime := now));
        }
      }
    }

    /** on_video_ended (app.py:2113-2129). */
    method OnVideoEnded()
      requires Valid()
      modifies this
      ensures Valid() && observed == old(observed)
      ensures State() == VideoEnded(old(State()))
    {
      video := video.(paused := true, endLabelVisible := true);
    }

    /** stop_video (app.py:1992-2111); the detector's pending frame is
        dropped as well. */
    method StopVideo(yolo: YoloDetectionThread)
      requires Valid() && yolo.Valid()
      modifies this, yolo
      ensures Valid() && yolo.Valid() && observed == []
      ensures State() == Stopped(old(State()))
      ensures yolo.frameQueue == [] && yolo.model == old(yolo.model) && yolo.processing == old(yolo.processing)
      ensures yolo.confidenceThreshold == old(yolo.confidenceThreshold)
      ensures yolo.running == old(yolo.running) && yolo.modelPath == old(yolo.modelPath) && yolo.loadingModel == old(yolo.loadingModel)
    {
      yolo.ClearQueue();
      video := Video(false, false, false, None, [], ClockState(0, 0.0), video.frameInterval);
      counting := counting.(history := [], smoothed := 0);
      graph := Graph([], []);
      heatmap := HeatLayer(false, Reset);
      peaks, observed := Initial, [];
      crowd := CrowdWatch(false, crowd.threshold, AlertState(false, []));
    }

    /** load_video_from_path (app.py:1819-1933): `exists_` is
        os.path.exists, `opens` whether the capture opened, `fps` its
        reported frame rate, `now` the wall clock. */
    method LoadVideoFromPath(exists_: bool, opens: bool, fps: real, now: real, yolo: YoloDetectionThread)
      requires Valid() && yolo.Valid()
      modifies this, yolo
      ensures Valid() && yolo.Valid() && observed == []
      ensures State() == Loaded(old(State()), exists_, opens, fps, now)
      ensures yolo.frameQueue == [] && yolo.model == old(yolo.model) && yolo.processing == old(yolo.processing)
      ensures yolo.confidenceThreshold == old(yolo.confidenceThreshold)
      ensures yolo.running == old(yolo.running) && yolo.modelPath == old(yolo.modelPath) && yolo.loadingModel == old(yolo.loadingModel)
    {
      StopVideo(yolo);
      if !exists_ || !opens {
        return;
      }
      video := video.(capOpen := true, clock := ClockState(0, now));
      graph := Graph([], []);
      heatmap := heatmap.(acc := Reset);
      counting := counting.(history := [], smoothed := 0);
      peaks, observed := Initial, [];
      crowd := crowd.(alert := AlertState(false, []));
      video := video.(frameInterval := FrameInterval(fps), paused := false, endLabelVisible := false);
    }

    /** restart_video (app.py:1145-1312): `threadRunning` is whether the
        reader thread was running, `firstFrame` the frame read back after
        rewinding (None when the read fails), `results` the detector's
        output for it (None when inference raises). Returns whether the
        reader thread is started again. */
    method RestartVideo(threadRunning: bool, now: real, firstFrame: Option<Frame>, yoloReady: bool,
                        results: Option<seq<seq<Detection>>>, yolo: YoloDetectionThread) returns (restartThread: bool)
      requires Valid() && yolo.Valid()
      modifies this, yolo
      ensures Valid() && yolo.Valid()
      ensures State() == Restarted(old(State()), params, numerics, threadRunning, now, firstFrame,
                                   yoloReady && old(yolo.model).Some?, results)
      ensures restartThread == RestartsThread(old(State()), threadRunning, firstFrame)
      ensures yolo.frameQueue == if old(video.capOpen) && firstFrame.None? then [] else old(yolo.frameQueue)
      ensures yolo.model == old(yolo.model) && yolo.processing == old(yolo.processing)
      ensures yolo.confidenceThreshold == old(yolo.confidenceThreshold)
      ensures yolo.running == old(yolo.running) && yolo.modelPath == old(yolo.modelPath) && yolo.loadingModel == old(yolo.loadingModel)
    {
      restartThread := false;
      if !video.capOpen {
        return;
      }
      var atEnd := video.endLabelVisible;
      var wasPaused := video.paused;
      ResetForRestart(now);
      if firstFrame.None? {
        StopVideo(yolo);
        return;
      }
      restartThread := threadRunning || atEnd;
      var pausedAfter := if restartThread then wasPaused && !atEnd else true;
      ReadBackFirstFrame(firstFrame.value, yoloReady && yolo.model.Some?, results, pausedAfter);
    }

    /** restart_video once the first frame has been read back
        (app.py:1222-1300). */
    method ReadBackFirstFrame(frame: Frame, detectorReady: bool, results: Option<seq<seq<Detection>>>, pausedAfter: bool)
      requires Valid()
      modifies this
      ensures Valid() && observed == old(observed)
      ensures State() == AfterFirstRead(old(State()), params, numerics, frame, detectorReady, results, pausedAfter)
    {
      ghost var s0 := State();
      video := video.(currentFrame := Some(frame));
      assert State() == s0.(video := s0.video.(currentFrame := Some(frame)));
      DetectFirstFrame(frame, detectorReady, results);
      ghost var s2 := State();
      video := video.(paused := pausedAfter);
      assert State() == s2.(video := s2.video.(paused := pausedAfter));
    }

    /** The resets of restart_video before the first frame is read again
        (app.py:1153-1219). */
    method ResetForRestart(now: real)
      requires Valid()
      modifies this
      ensures Valid() && observed == []
      ensures State() == RestartReset(old(State()), now)
    {
      ghost var s0 := State();
      video := video.(endLabelVisible := false, paused := true, clock := ClockState(0, now));
      graph := Graph([], []);
      heatmap := heatmap.(acc := Reset);
      crowd := crowd.(alert := crowd.alert.(active := false));
      UpdateCrowdAlertStatus(false, 0);
      peaks, observed := Initial, [];
      assert State() == RestartReset(s0, now);
    }

    /** The first-frame detection of restart_video (app.py:1226-1264). */
    method DetectFirstFrame(frame: Frame, detectorReady: bool, results: Option<seq<seq<Detection>>>)
      requires Valid()
      modifies this
      ensures Valid() && observed == old(observed)
      ensures State() == FirstFrameDetected(old(State()), params, numerics, frame, detectorReady, results)
    {
      if detectorReady {
        if results.Some? {
          var count, boxes := FilterDetections(results.value, confidence);
          ReseedHistory(count, boxes);
          var overlay := ProcessFrameWithHeatmap(Some(frame), boxes);
        }
      } else {
        video := video.(lastBoxes := []);
      }
    }

    /** The history restarted from the first frame's count
        (app.py:1238-1255). */
    method ReseedHistory(count: nat, boxes: seq<Box>)
      requires Valid() && count == |boxes|
      modifies this
      ensures Valid() && observed == old(observed)
      ensures State() == Reseeded(old(State()), boxes)
    {
      ghost var s0 := State();
      video := video.(lastBoxes := boxes);
      counting := Counting(counting.windowSize, [count], count);
      ghost var s1 := State();
      assert s1 == s0.(video := s0.video.(lastBoxes := boxes), counting := Counting(s0.counting.windowSize, [count], count));
      UpdatePeopleGraph(counting.smoothed);
      if crowd.enabled {
        CheckThresholdCrossing();
      }
    }
  }

  // ---------------------------------------------------------------------
  // Properties of the transitions

  lemma InitialStateIsValid()
    ensures ValidState(InitialState())
  {
    ResetIsConsistent();
  }

  /** Stopping brings the session back to the state of a freshly opened
      window, except for the four settings, which it keeps; stopping twice
      is stopping once, and the stopped state is valid. */
  lemma StopRestoresInitial(s: AppState)
    requires s.counting.windowSize >= 1
    ensures var i := InitialState();
      Stopped(s) == i.(video := i.video.(frameInterval := s.video.frameInterval),
                       counting := i.counting.(windowSize := s.counting.windowSize),
                       confidence := s.confidence, crowd := i.crowd.(threshold := s.crowd.threshold))
    ensures Stopped(Stopped(s)) == Stopped(s)
    ensures ValidState(Stopped(s))
  {
    ResetIsConsistent();
  }

  /** A successful load is a stop followed by opening the capture: nothing
      of the previous session survives, the alert log included; a load
      that fails (missing file, capture that does not open) leaves the
      stopped state. */
  lemma LoadStartsFreshSession(s: AppState, exists_: bool, opens: bool, fps: real, now: real)
    requires s.counting.windowSize >= 1
    ensures var r := Loaded(s, exists_, opens, fps, now);
      && ValidState(r)
      && (r.video.capOpen <==> exists_ && opens)
      && r.crowd.alert == AlertState(false, []) && r.peaks == Initial && r.heatmap == HeatLayer(false, Reset)
      && r.counting.history == [] && !r.video.paused && r.graph == Graph([], [])
    ensures !(exists_ && opens) ==> Loaded(s, exists_, opens, fps, now) == Stopped(s)
    ensures exists_ && opens ==> Loaded(s, exists_, opens, fps, now).video.frameInterval == FrameInterval(fps)
  {
    ResetIsConsistent();
  }

  /** Restart resets the clock, the graph, the accumulators, the peaks and
      the alert flag, but keeps threshold_history: what was logged stays
      logged, and at most one record (the first frame's crossing) is added.
      The graph stays empty, as update_people_graph does nothing while the
      restart holds the video paused. */
  lemma RestartKeepsAlertLog(s: AppState, p: HeatParams, num: Numerics, threadRunning: bool, now: real,
                             f: Frame, detectorReady: bool, results: Option<seq<seq<Detection>>>)
    requires ValidState(s) && s.video.capOpen
    ensures var r := Restarted(s, p, num, threadRunning, now, Some(f), detectorReady, results);
      && |s.crowd.alert.log| <= |r.crowd.alert.log| <= |s.crowd.alert.log| + 1
      && r.crowd.alert.log[..|s.crowd.alert.log|] == s.crowd.alert.log
      && r.video.clock == ClockState(0, now) && r.peaks == Initial && r.graph == Graph([], [])
      && r.video.currentFrame == Some(f) && !r.video.endLabelVisible
      && r.crowd.enabled == s.crowd.enabled && r.heatmap.enabled == s.heatmap.enabled
  {
  }

  /** After a restart the video plays only when the reader thread is
      started again and the video was playing or had reached its end:
      `should_be_paused = was_paused and not video_was_at_end`. */
  lemma RestartPauseRule(s: AppState, p: HeatParams, num: Numerics, threadRunning: bool, now: real,
                         f: Frame, detectorReady: bool, results: Option<seq<seq<Detection>>>)
    requires ValidState(s) && s.video.capOpen
    ensures var r := Restarted(s, p, num, threadRunning, now, Some(f), detectorReady, results);
      && (RestartsThread(s, threadRunning, Some(f)) ==> r.video.paused == (s.video.paused && !s.video.endLabelVisible))
      && (!RestartsThread(s, threadRunning, Some(f)) ==> r.video.paused)
      && (s.video.endLabelVisible ==> !r.video.paused)
  {
  }

  /** With a ready detector and a successful inference, the restarted
      history is the single count of the first frame's kept boxes, and the
      smoothed count equals it. */
  lemma RestartReseedsHistory(s: AppState, p: HeatParams, num: Numerics, threadRunning: bool, now: real,
                              f: Frame, results: seq<seq<Detection>>)
    requires ValidState(s) && s.video.capOpen
    ensures var r := Restarted(s, p, num, threadRunning, now, Some(f), true, Some(results));
      var boxes := Kept(Flatten(results), s.confidence);
      r.counting.history == [|boxes|] && r.counting.smoothed == |boxes| && r.video.lastBoxes == boxes
  {
  }

  /** A failed read of the first frame after rewinding stops the video,
      and the reader thread is not started again. */
  lemma RestartFailedReadStops(s: AppState, p: HeatParams, num: Numerics, threadRunning: bool, now: real,
                               detectorReady: bool, results: Option<seq<seq<Detection>>>)
    requires ValidState(s) && s.video.capOpen
    ensures Restarted(s, p, num, threadRunning, now, None, detectorReady, results) == Stopped(s)
    ensures !RestartsThread(s, threadRunning, None)
  {
  }

  /** Threshold edits and disabling detection both force Normal and log
      nothing, whatever the count; enabling never raises by itself. */
  lemma SettingsForceNormal(s: AppState, value: int)
    requires ValidState(s)
    ensures var r := ThresholdChanged(s, value); !r.crowd.alert.active && r.crowd.alert.log == s.crowd.alert.log
    ensures var r := CrowdToggled(s, false); !r.crowd.alert.active && r.crowd.alert.log == s.crowd.alert.log
    ensures CrowdToggled(s, true).crowd.alert == s.crowd.alert
  {
  }

  /** Resizing the window keeps exactly the last min(v, n) counts in their
      order and smooths them at once; an empty history smooths to 0. */
  lemma WindowChangeKeepsLatest(s: AppState, v: nat)
    requires ValidState(s) && v >= 1
    ensures var r := WindowChanged(s, v);
      && |r.counting.history| == Min(v, |s.counting.history|)
      && r.counting.history == s.counting.history[|s.counting.history| - |r.counting.history|..]
      && r.counting.smoothed == Smoothed(r.counting.history)
      && (s.counting.history == [] ==> r.counting.smoothed == 0)
  {
  }

  /** Detection results for `frames` with raw counts `counts`, each with
      the same boxes, in turn. */
  function DetectAll(s: AppState, p: HeatParams, num: Numerics, frames: seq<Frame>, counts: seq<int>, boxes: seq<Box>): (r: AppState)
    requires ValidState(s) && |frames| == |counts|
    ensures ValidState(r)
    ensures r.counting.windowSize == s.counting.windowSize
    decreases |counts|
  {
    if counts == [] then s
    else
      var n := |counts| - 1;
      Detected(DetectAll(s, p, num, frames[..n], counts[..n], boxes), p, num, Some(frames[n]), counts[n], boxes)
  }

  /** The smoothed count a detection produces is the rounded mean of the
      last min(window, n) raw counts of the whole run, however the counts
      arrived: pushing counts one at a time agrees with keeping the tail of
      all of them. */
  lemma {:induction false} DetectionsSmoothLastWindow(s: AppState, p: HeatParams, num: Numerics, frames: seq<Frame>,
                                                     counts: seq<int>, boxes: seq<Box>)
    requires ValidState(s) && |frames| == |counts|
    ensures var r := DetectAll(s, p, num, frames, counts, boxes);
      && r.counting.history == LastN(s.counting.history + counts, s.counting.windowSize)
      && r.counting.smoothed == Smoothed(r.counting.history)
    decreases |counts|
  {
    var w := s.counting.windowSize;
    if counts == [] {
      assert s.counting.history + counts == s.counting.history;
    } else {
      var n := |counts| - 1;
      DetectionsSmoothLastWindow(s, p, num, frames[..n], counts[..n], boxes);
      LastNOfLastN(s.counting.history + counts[..n], [counts[n]], w);
      AppendLast(s.counting.history, counts);
    }
  }

  lemma AppendLast(h: seq<int>, xs: seq<int>)
    requires |xs| > 0
    ensures h + xs[..|xs| - 1] + [xs[|xs| - 1]] == h + xs
  {
    assert xs == xs[..|xs| - 1] + [xs[|xs| - 1]];
  }

  /** While paused, frames neither advance the clock nor move the graph. */
  lemma PausedFreezesTimeline(s: AppState, p: HeatParams, num: Numerics, f: Frame, now: real, count: int,
                              boxes: seq<Box>)
    requires ValidState(s) && s.video.paused
    ensures VideoFrame(s, p, num, Some(f), now, true).video.clock == s.video.clock
    ensures Detected(s, p, num, Some(f), count, boxes).graph == s.graph
  {
  }
}
