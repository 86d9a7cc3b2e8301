/** The video clock and the people-count graph series of app.py: the
    per-frame advance of `video_time_ms` in process_video_frame, the
    `frame_interval` taken from the video's frame rate, and the
    append-or-overwrite rule of update_people_graph on `time_data` and
    `people_data`. */
module Timeline {

  import opened Numeric

  /** The cap on one frame's advance of the video clock (app.py:2164). */
  const MaxIncrementMs := 250

  /** The interval used when the frame rate is unknown (app.py:112, 1912). */
  const DefaultFrameInterval := 33

  /** frame_interval after opening a video (app.py:1908-1912): the reported
      fps, when positive, as whole milliseconds per frame (truncated). */
  function FrameInterval(fps: real): (r: int)
    ensures r >= 0
    ensures fps > 0.0 ==> r as real <= 1000.0 / fps < r as real + 1.0
    ensures fps <= 0.0 ==> r == DefaultFrameInterval
  {
    if fps > 0.0 then Trunc(1000.0 / fps) else DefaultFrameInterval
  }

  /** int((current_time - last_frame_time) * 1000): wall-clock ms, truncated. */
  function ElapsedMs(now: real, last: real): int
  {
    Trunc((now - last) * 1000.0)
  }

  /** The advance of the video clock for one frame (app.py:2162-2164): the
      frame interval when there is one, else the wall-clock time (at least
      1), never more than 250 ms. */
  function TimerIncrement(frameInterval: int, elapsed: int): (r: int)
    ensures 1 <= r <= MaxIncrementMs
    ensures 0 < frameInterval <= MaxIncrementMs ==> r == frameInterval
    ensures frameInterval <= 0 && 1 <= elapsed <= MaxIncrementMs ==> r == elapsed
    ensures frameInterval > MaxIncrementMs || (frameInterval <= 0 && elapsed > MaxIncrementMs) ==> r == MaxIncrementMs
  {
    var inc := if frameInterval > 0 then frameInterval else Max(1, elapsed);
    Min(inc, MaxIncrementMs)
  }

  /** The clock fields process_video_frame reads and writes. */
  datatype ClockState = ClockState(videoTimeMs: int, lastFrameTime: real)

  /** The timer block of process_video_frame for an unpaused frame arriving
      at wall-clock time `now` (app.py:2158-2166): the very first frame
      after a stop (last_frame_time still 0) only records the time. */
  function Tick(c: ClockState, now: real, frameInterval: int): (r: ClockState)
    ensures r.lastFrameTime == now
    ensures c.lastFrameTime > 0.0 ==> c.videoTimeMs + 1 <= r.videoTimeMs <= c.videoTimeMs + MaxIncrementMs
    ensures c.lastFrameTime <= 0.0 ==> r.videoTimeMs == c.videoTimeMs
  {
    if c.lastFrameTime > 0.0 then
      ClockState(c.videoTimeMs + TimerIncrement(frameInterval, ElapsedMs(now, c.lastFrameTime)), now)
    else ClockState(c.videoTimeMs, now)
  }

  /** The clock after unpaused frames arriving at the wall-clock times `nows`. */
  function TickAll(c: ClockState, nows: seq<real>, frameInterval: int): (r: ClockState)
    ensures nows == [] ==> r == c
    ensures nows != [] ==> r.lastFrameTime == nows[|nows| - 1]
    decreases |nows|
  {
    if nows == [] then c else Tick(TickAll(c, nows[..|nows| - 1], frameInterval), nows[|nows| - 1], frameInterval)
  }

  /** Over any run of frames the video clock never goes back and advances
      by at most 250 ms per frame, however the wall clock behaves (it may
      even run backwards); with a positive interval of at most 250 and a
      clock already started, it advances by exactly the interval per frame. */
  lemma {:induction false} TickAllBounds(c: ClockState, nows: seq<real>, frameInterval: int)
    ensures var r := TickAll(c, nows, frameInterval);
      c.videoTimeMs <= r.videoTimeMs <= c.videoTimeMs + MaxIncrementMs * |nows|
    ensures c.lastFrameTime > 0.0 && (forall i :: 0 <= i < |nows| ==> nows[i] > 0.0) && 0 < frameInterval <= MaxIncrementMs
      ==> TickAll(c, nows, frameInterval).videoTimeMs == c.videoTimeMs + frameInterval * |nows|
    decreases |nows|
  {
    if nows != [] {
      var pre := nows[..|nows| - 1];
      TickAllBounds(c, pre, frameInterval);
      var r0 := TickAll(c, pre, frameInterval);
      assert MaxIncrementMs * |nows| == MaxIncrementMs * |pre| + MaxIncrementMs;
      assert frameInterval * |nows| == frameInterval * |pre| + frameInterval;
      if |pre| > 0 {
        assert r0.lastFrameTime == nows[|pre| - 1];
      }
    }
  }

  predicate StrictlyIncreasing(s: seq<real>)
  {
    forall i, j :: 0 <= i < j < |s| ==> s[i] < s[j]
  }

  /** The series update of update_people_graph (app.py:1544-1548) at time t
      (seconds) with count c: a new point when the time has advanced past
      the last one (or the series is empty), otherwise the last count is
      overwritten. The times stay strictly increasing, every earlier point
      stays as it was, and the last point carries c. */
  function RecordSample(times: seq<real>, counts: seq<int>, t: real, c: int): (r: (seq<real>, seq<int>))
    requires |times| == |counts|
    ensures |r.0| == |r.1| > 0 && r.1[|r.1| - 1] == c
    ensures StrictlyIncreasing(times) ==> StrictlyIncreasing(r.0)
    ensures |times| <= |r.0| <= |times| + 1 && r.0[..|times|] == times
    ensures |counts| > 0 ==> r.1[..|counts| - 1] == counts[..|counts| - 1]
    ensures |r.0| == |times| + 1 <==> (times == [] || t > times[|times| - 1])
    ensures |r.0| == |times| + 1 ==> r.0[|times|] == t && r.1[..|counts|] == counts
    ensures |r.0| == |times| ==> r.0 == times
  {
    if times == [] || t > times[|times| - 1] then
      assert |counts| > 0 ==> (counts + [c])[..|counts| - 1] == counts[..|counts| - 1];
      (times + [t], counts + [c])
    else (times, counts[..|counts| - 1] + [c])
  }

  /** update_people_graph(count) (app.py:1534-1548) on the data lists: only
      while a video is open and playing, at the video time in seconds. */
  function UpdateGraph(playing: bool, videoTimeMs: int, times: seq<real>, counts: seq<int>, c: int): (r: (seq<real>, seq<int>))
    requires |times| == |counts|
    ensures |r.0| == |r.1|
    ensures StrictlyIncreasing(times) ==> StrictlyIncreasing(r.0)
    ensures !playing ==> r == (times, counts)
    ensures playing ==> |r.1| > 0 && r.1[|r.1| - 1] == c && |times| <= |r.0| && r.0[..|times|] == times
    ensures playing && |r.0| > |times| ==> r.0[|times|] == videoTimeMs as real / 1000.0
  {
    if playing then RecordSample(times, counts, videoTimeMs as real / 1000.0, c) else (times, counts)
  }

  /** Several samples at one video time leave one point, carrying the last
      count. */
  lemma RepeatedTimeOverwrites(times: seq<real>, counts: seq<int>, t: real, c1: int, c2: int)
    requires |times| == |counts|
    ensures var r1 := RecordSample(times, counts, t, c1);
      var r2 := RecordSample(r1.0, r1.1, t, c2);
      r2.0 == r1.0 && |r2.1| == |r1.1| && r2.1[|r2.1| - 1] == c2
  {
  }
}
