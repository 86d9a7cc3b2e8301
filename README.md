# crowdsense in Dafny

crowdsense is a desktop tool that plays a video (or a camera stream), runs a
person detector on its frames and shows what it sees: a smoothed people
count, the peak and off-peak counts with their times, a crowd alert with an
append-only log of threshold crossings, a heatmap of where people stood, and
a graph of the count over video time. This project models the part of it
that turns "the detector returned these boxes" into that state, and proves
what the state promises.

The model follows the source file by file:

- `app.py`, the main window `CrowdSenseApp`, is the class
  `CrowdApp.CrowdSenseApp`. Its fields are grouped into the datatypes of
  `AppState`. Every handler is a method proved to land on a pure transition
  of `AppState`, such as `Counted`, `Stopped` or `Restarted`. Lemmas relate
  those transitions to the initial state and to each other.
- The pure pieces of `app.py` are modules of functions and lemmas:
  - `Smoothing`: the bounded count history and its rounded mean.
  - `Peaks`: the peak and off-peak trackers.
  - `Alerts`: the edge-triggered alert with its log.
  - `Heatmap`: the accumulator update of `update_heatmap`. Its splat loops
    stay imperative methods over a 2-D array.
  - `Timeline`: the video clock and the graph series.
  - `TimeFormat`: the clock strings and parsers that read them back.
- `ui/widgets.py` gives the classes `Widgets.ToggleSwitch` and
  `Widgets.ModernBoxedSlider`, plus the drop filter of the video label.
- `core/threads.py` gives:
  - the classes `Threads.YoloDetectionThread` (the single-slot frame
    hand-off, the model guard and one iteration of the detection loop) and
    `Threads.VideoFrameThread` (the reader loop);
  - the confidence filter;
  - the progress percentage of the model download.
- `Numeric` and `Types` hold shared helpers:
  - integer truncation and clamping;
  - Python's round-half-even;
  - the frame, box and detection records.

Things the program gets from outside are parameters:

- the wall clock (`now`);
- the detector's results;
- whether a file exists or a capture opens;
- the frame rate;
- the three foreign numeric routines `np.sqrt`, `cv2.GaussianBlur` and
  `cv2.resize`. These are function-typed parameters (`Heatmap.Numerics`).
  The only things assumed of them are that the square root is non-negative
  and that the blur keeps the shape and non-negativity.

## Model

| member | source | states |
|---|---|---|
| Smoothing.LastN | app.py:1047-1048 | the window is the last min(n, len) elements of the list, in their order |
| Smoothing.Smoothed | app.py:1050-1054 | round(np.mean(history)), falling back to 0 for an empty history; a single sample smooths to itself (SmoothedIsNearestMean states the rounding) |
| Smoothing.DequeAppend | app.py:89-90 | appending to a bounded deque keeps at most maxlen elements, and they are the last maxlen of the old contents plus the new count |
| Smoothing.SmoothedIsNearestMean | app.py:2246-2247 | the smoothed count is an integer nearest the mean of the history, and a tie goes to the even neighbour, as Python's round does |
| Smoothing.PushAllKeepsLast | app.py:1047-1048 | pushing counts one at a time keeps exactly the last maxlen of everything pushed |
| Smoothing.LastNOfLastN | app.py:2242 | windowing, then appending and windowing again, equals windowing the whole run: an evicted sample never comes back |
| Smoothing.RebuildWindow | app.py:1042-1048 | the refill loop of the new deque (from Python's `current_history[-value:]`, where -0 means the whole list) ends holding exactly the last min(v, len) samples, and never more than v |
| Smoothing.PushStep | app.py:1047-1048 | one turn of the refill loop: appending the next sample to the window of a prefix gives the window of the longer prefix |
| Smoothing.TailOfTail | app.py:1047 | re-windowing the Python tail `[-v:]` gives the same window as windowing the whole list |
| Smoothing.SmoothedWithinRange | app.py:2246-2247 | the smoothed count lies between the smallest and largest count in the window |
| Smoothing.WindowOfThreeExample | app.py:2242-2247 | with window 3, pushing 2, 4 and 9 smooths to 5; pushing 100 then evicts the 2, and [4, 9, 100] rounds to 38 |
| Numeric.RoundHalfEven | app.py:2246 | the result r satisfies 2·|num − r·den| ≤ den, and is even on a tie |
| Numeric.RoundHalfEvenUnique | app.py:2246 | the two facts above determine the rounding: any integer meeting them is the rounded value |
| Numeric.SumBounds | app.py:2246 | elements in [lo, hi] put the sum in [lo·n, hi·n] |
| Peaks.PeakIsFirstMaximum | app.py:2272-2275 | after any run of observations, peak_count is the largest count seen (at least 0); its time is that of the first observation reaching it; a peak of 0 keeps time 0 |
| Peaks.OffpeakIsFirstPositiveMinimum | app.py:2277-2281 | offpeak_count stays +inf exactly while no positive count was seen; otherwise it is the smallest positive count, with the time of its first occurrence |
| Peaks.NoPeopleKeepsInitial | app.py:118-121 | a session in which nobody is counted leaves the initial peak 0 and off-peak +inf |
| Peaks.Observe | app.py:2272-2281 | one observation: the peak becomes the larger of the old peak and the count, and keeps its time unless the count is strictly higher; a positive count leaves an off-peak at most that count; a count of 0 or less leaves the off-peak untouched |
| Peaks.FirstPositiveSetsBoth | app.py:2272-2281 | the two updates are independent: the first positive count sets peak and off-peak together |
| Peaks.UpdatePeaks | app.py:2272-2281 | the two field updates, one at a time, give the observation step |
| Peaks.ObserveAllSnoc | app.py:2272-2281 | observing one more sample extends the trackers' fold by one step |
| Alerts.AsWrittenLogNeverGrows | app.py:1078-1118 | as written, the alert log never grows, and the first Normal→Alert transition raises |
| Alerts.UpdateStatusAsWritten | app.py:1078-1118 | as written, the flag always becomes the requested state, and the call raises exactly on a Normal→Alert transition |
| Alerts.AsWrittenLosesFirstAlert | app.py:1112-1118 | from Normal with threshold 10 and count 12: the code as written raises and logs nothing, while the intended handler logs one record holding 12 and 10 |
| Alerts.UpdateStatus | app.py:1078-1118 | the intended handler: the flag becomes the requested state and the log only grows, by at most one record |
| Alerts.UpdateStatusEdgeTriggered | app.py:1078-1118 | one call, as every caller makes it: a call with the current state changes nothing; lowering the flag logs nothing; raising it appends exactly one record holding the timestamp of the video time, the count and the threshold |
| Alerts.CheckCrossing | app.py:2303-2311 | the flag becomes `smoothed > threshold`; an upward crossing appends exactly one record holding the count and the threshold; anything else leaves the log unchanged |
| Alerts.CheckAllLogsRisingEdges | app.py:2303-2311 | over any run of smoothed counts, the log only grows. It grows by exactly one record per upward crossing of the strict `>` threshold, and each new record holds a count above the threshold and that threshold. The final state is whether the last count was above it. |
| Alerts.CheckAllStep | app.py:2306-2310 | the fold of check_threshold_crossing over a run, taken one sample at a time |
| Alerts.EdgeTriggerExample | app.py:2306-2310 | threshold 10 with counts 5, 12, 15, 8, 20 logs exactly two records, for 12 and 20, and ends in Alert |
| Heatmap.ZeroGrid | app.py:1441-1442 | np.zeros((h, w)): of shape h×w, every cell 0 |
| Heatmap.ScaleGrid | app.py:1452 | element-wise multiplication of the grid by k |
| Heatmap.AddScaled | app.py:1514-1519 | element-wise a + b·k on grids of one shape |
| Heatmap.DivGrid | app.py:1511-1525 | element-wise division by m |
| Heatmap.ClampNonNeg | app.py:1528 | np.maximum(grid, 0): each cell is max(cell, 0) |
| Heatmap.RowMax | app.py:1508 | the maximum of a row: above every element and equal to one of them |
| Heatmap.GridMax | app.py:1508-1523 | np.max of a grid: above every cell and equal to one of them |
| Heatmap.Normalize | app.py:1506-1511 | the normalisation of the blurred frame: keeps the shape; every cell is at most 1; a non-negative grid lands in [0, 1]; a positive maximum becomes exactly 1; a non-positive maximum gives the zero grid |
| Heatmap.CapToOne | app.py:1523-1525 | the cap of the live grid: a grid whose maximum exceeds 1 is divided by that maximum, and a grid already at most 1 is unchanged; either way the shape is kept and every cell is at most 1 |
| Heatmap.FootPoint | app.py:1462-1468 | the foot point (bottom centre, scaled, truncated) is clamped into the low-resolution grid, and equals the truncated point whenever that lies inside |
| Heatmap.Feet | app.py:1459-1468 | one foot point per box, in box order |
| Heatmap.DistSq | app.py:1476-1481 | the squared distance is non-negative and zero only at the foot |
| Heatmap.Falloff | app.py:1484-1488 | the neighbour intensity max(0, 1 − dist/radius)·0.7 lies in [0, 0.7] |
| Heatmap.Contrib | app.py:1470-1493 | what one foot contributes to a cell: in [0, 1], exactly 1.0 on the foot, at most 0.7 elsewhere, and 0 beyond the radius |
| Heatmap.ContribInWindow | app.py:1474-1490 | inside the window and the radius and off the foot, the contribution is the falloff of the square-rooted distance |
| Heatmap.SplatGrid | app.py:1455-1493 | the splatted frame has the low-resolution shape and each cell holds the max over all feet |
| Heatmap.SplatValueBounds | app.py:1462-1493 | every splatted cell is in [0, 1]. It is exactly 1 if and only if it is some box's foot point. Any other cell is at most 0.7, and a cell beyond the radius of every foot stays 0. |
| Heatmap.SplatOne | app.py:1462-1493 | one box's splat on the array: the foot cell becomes 1.0, and every other cell takes the max of itself and that foot's contribution |
| Heatmap.SplatRow | app.py:1474-1493 | the inner `for x` loop on one row of the window: each cell of the row in range takes the max with the contribution, and nothing else changes |
| Heatmap.SplatBoxes | app.py:1455-1493 | the loop over boxes on a fresh zero array yields the splatted frame of their feet |
| Heatmap.ResetIsConsistent | app.py:1441-1448 | the reset accumulators (both absent, counter 0) are consistent |
| Heatmap.Current | app.py:1455-1512 | current_heatmap has the low-resolution shape with cells in [0, 1], and is all zeros without boxes |
| Heatmap.SplatInUnit | app.py:1462-1493 | the splatted grid lies in [0, 1], and is all zeros with no feet |
| Heatmap.Blurred | app.py:1497-1511 | three blur passes and the normalisation keep the shape and give cells in [0, 1] |
| Heatmap.Prepare | app.py:1434-1448 | accumulators of the right shape are kept; missing or mis-shaped ones are re-allocated as zeros with the counter reset to 0 |
| Heatmap.LiveUpdate | app.py:1452-1528 | live·decay + current·intensity, capped and clamped, has the low-resolution shape with every cell in [0, 1], whatever decay and intensity are |
| Heatmap.Step | app.py:1418-1531 | update_heatmap keeps the accumulators consistent and returns an overlay only for a frame; the Step lemmas below state the rest |
| Heatmap.AggregateUpdate | app.py:1517-1520 | with boxes, every aggregate cell becomes its old value plus the current cell; without boxes, the aggregate is unchanged. No cell decreases, and non-negativity is kept. |
| Heatmap.CurrentGrid | app.py:1455-1512 | the array computation of current_heatmap equals the function Current |
| Heatmap.ComputeHeatmap | app.py:1418-1531 | the body of update_heatmap returns the function Step |
| Heatmap.UpdateOnFrame | app.py:1434-1531 | the accumulator update on a frame of known shape returns the function FrameStep |
| Heatmap.StepNoOverlay | app.py:1428-1432 | update_heatmap returns None exactly when there is no frame or a low-resolution side truncates to 0 or less, and then the accumulators and the counter are untouched |
| Heatmap.StepKeepsConsistent | app.py:1434-1531 | whatever the parameters and foreign numerics do, an update keeps both accumulators of the low-resolution shape, live cells in [0, 1] and the aggregate non-negative |
| Heatmap.StepResetsOnResize | app.py:1440-1448 | a change of low-resolution shape starts over: the counter restarts (at 1 with boxes, 0 without), and without boxes the aggregate is all zeros |
| Heatmap.StepAggregateNeverDecays | app.py:1452-1520 | on an unchanged shape, the aggregate is never decayed: a frame with boxes adds the current grid to it cell by cell and one to the counter; a frame without boxes leaves both unchanged |
| Heatmap.StepWithoutBoxesDecays | app.py:1452-1514 | a frame without boxes on an unchanged shape, with decay in [0, 1], multiplies every live cell by the decay, and by nothing more |
| Heatmap.LiveUpdateOnlyDecays | app.py:1452-1528 | with a zero current grid and decay in [0, 1], the live update is exactly the decay |
| Timeline.FrameInterval | app.py:1908-1912 | frame_interval is int(1000/fps) for a positive fps, else 33 |
| Timeline.TimerIncrement | app.py:2162-2164 | one frame's clock advance is in [1, 250]: the interval when it is in range, else the wall-clock ms, capped at 250 |
| Timeline.Tick | app.py:2158-2166 | a started clock advances by 1 to 250 ms; the first frame after a reset only records the wall-clock time |
| Timeline.TickAll | app.py:2156-2166 | the clock after a run of unpaused frames: unchanged by an empty run, and otherwise with the last frame's wall-clock time as the baseline (TickAllBounds states the advance) |
| Timeline.TickAllBounds | app.py:2156-2166 | over any run of frames, video_time_ms never decreases and grows by at most 250 per frame, however the wall clock behaves. A valid interval and a started clock make it grow by exactly the interval per frame. |
| Timeline.RecordSample | app.py:1544-1548 | a point is appended exactly when time has advanced past the last one (or the series is empty); otherwise the last count is overwritten. Times stay strictly increasing, earlier points are kept, and the last count is the new one. |
| Timeline.UpdateGraph | app.py:1534-1548 | nothing changes unless the video is open and playing; otherwise the sample is recorded at the video time in seconds |
| Timeline.RepeatedTimeOverwrites | app.py:1547-1548 | two samples at one video time leave one point carrying the last count |
| TimeFormat.SplitClock | app.py:1070-1074 | the // and % split gives minutes and seconds below 60 and millis below 1000, and recombines to the original time |
| TimeFormat.HoursMinutesSeconds | app.py:1071-1073 | hours, minutes and seconds recombine into the total seconds they came from |
| TimeFormat.Pad | app.py:1076 | zero-padding gives only digits, at least the width |
| TimeFormat.ValueOfPad | app.py:1076 | a zero-padded number reads back as that number |
| TimeFormat.PadLength | app.py:1076 | a number below 10^width pads to exactly width characters |
| TimeFormat.FilenameStamp | app.py:1067-1076 | format_time_for_filename, "<HH>h<MM>m<SS>s<mmm>ms": at least 14 characters; FilenameStampRoundTrip shows it loses nothing |
| TimeFormat.TimerText | app.py:2132-2142 | the timer text "<HH>:<MM>:<SS>:<mmm>": at least 12 characters; TimerTextRoundTrip shows it loses nothing |
| TimeFormat.PeakTimeText | app.py:2187-2194 | the peak-time text "<HH>:<MM>:<SS>": at least 8 characters; PeakTimeTextRoundTrip shows it keeps the whole seconds |
| TimeFormat.FilenameStampRoundTrip | app.py:1067-1076 | the alert-log timestamp parses back to the exact time in ms |
| TimeFormat.FilenameStampInjective | app.py:1067-1076 | two different times never share a timestamp |
| TimeFormat.TimerTextRoundTrip | app.py:2132-2142 | the timer text HH:MM:SS:mmm parses back to the exact time in ms |
| TimeFormat.PeakTimeTextRoundTrip | app.py:2187-2194 | the peak-time text HH:MM:SS parses back to the whole seconds of the time |
| CrowdApp.FrameWithHeatmap | app.py:1342-1354 | only the accumulators can change; with a frame and the heatmap enabled, they become those of update_heatmap, and otherwise nothing changes; consistency is kept |
| CrowdApp.CrowdToggled | app.py:1005-1027 | disabling forces Normal without logging. Enabling leaves the alert as it was. The threshold and the log are kept, and the state stays valid. |
| CrowdApp.ThresholdChanged | app.py:1030-1037 | the new threshold is stored and the alert forced to Normal, whatever the count; the log is kept |
| CrowdApp.WindowChanged | app.py:1040-1065 | the new window keeps LastN of the history. While crowd detection is on, the alert is re-checked against the new smoothed count; otherwise the alert is untouched. |
| CrowdApp.HeatmapToggled | app.py:1615-1636 | only the heatmap layer changes; the accumulators change only when paused on a frame with the heatmap switched on |
| CrowdApp.CountStep | app.py:2240-2254 | the count enters the bounded history as its last element; the history is LastN(old + [count], window); the smoothed count is its rounded mean |
| CrowdApp.Counted | app.py:2236-2281 | boxes kept; count smoothed; alert checked (only while crowd detection is on); peaks observed at the video time; graph untouched unless playing; heatmap and confidence unchanged |
| CrowdApp.Detected | app.py:2232-2301 | no frame changes nothing; otherwise the same as Counted, then the accumulators take the frame |
| CrowdApp.VideoFrame | app.py:2150-2185 | the frame is kept, and the clock ticks only when unpaused. Without a ready detector, the accumulators take the frame with no boxes. Counts, peaks, alert and graph are untouched. |
| CrowdApp.PauseToggled | app.py:1971-1989 | toggles pause on an open video only, never moving video time; resuming hides the end label |
| CrowdApp.VideoEnded | app.py:2113-2129 | the end of playback pauses and shows the end label; nothing else of the session changes and validity is kept |
| CrowdApp.Stopped | app.py:1992-2111 | stop_video closes the capture and clears the session (history, peaks, graph, accumulators, alert and its log, both overlays); it keeps the window size, both thresholds and the frame interval; the result is valid |
| CrowdApp.Loaded | app.py:1819-1933 | a load leaves a new session (empty log, initial peaks, empty graph); it opens, with the clock at 0 and playing, exactly when the file exists and the capture opens |
| CrowdApp.ConfidenceChanged | app.py:1607-1613 | the confidence threshold becomes value/100, and nothing else changes |
| CrowdApp.Reseeded | app.py:1238-1255 | the history restarts as the single count of the first frame's boxes, which is also the smoothed count; the log keeps its prefix and gains at most one record |
| CrowdApp.FirstFrameDetected | app.py:1226-1264 | a ready detector with results reseeds from the kept boxes. A failed inference changes nothing. No detector clears the boxes. Peaks and settings are kept, and the log only grows. |
| CrowdApp.RestartReset | app.py:1153-1219 | the clock restarts at 0 from the wall-clock time, the graph is emptied, both accumulators and the counter go back to the reset state, the peaks to their initial values, and the alert flag is lowered while threshold_history is kept; the video is held paused with the end label hidden; the count history, the settings and the confidence are untouched; the state stays valid |
| CrowdApp.Restarted | app.py:1145-1312 | restart_video leaves a valid state |
| CrowdApp.AfterFirstRead | app.py:1222-1300 | after the read-back, detection on the first frame and the pause rule leave a valid state |
| CrowdApp.CrowdSenseApp.constructor | app.py:80-123 | the window starts in InitialState, which is valid |
| CrowdApp.CrowdSenseApp.UpdateCrowdAlertStatus | app.py:1078-1118 | the alert state becomes UpdateStatus of the old one, whose per-call behaviour Alerts.UpdateStatusEdgeTriggered states, and nothing else changes |
| CrowdApp.CrowdSenseApp.CheckThresholdCrossing | app.py:2303-2311 | the alert state becomes CheckCrossing on the smoothed count |
| CrowdApp.CrowdSenseApp.UpdatePeopleGraph | app.py:1534-1548 | the graph series become UpdateGraph of the old ones |
| CrowdApp.CrowdSenseApp.UpdateHeatmap | app.py:1418-1531 | the accumulators become Step's, and the overlay is Step's |
| CrowdApp.CrowdSenseApp.ProcessFrameWithHeatmap | app.py:1342-1354 | the new state is FrameWithHeatmap of the old one |
| CrowdApp.CrowdSenseApp.OnCrowdDetectionToggled | app.py:1005-1027 | the new state is CrowdToggled of the old one |
| CrowdApp.CrowdSenseApp.OnCrowdSizeThresholdChanged | app.py:1030-1037 | the new state is ThresholdChanged of the old one |
| CrowdApp.CrowdSenseApp.OnSmoothingWindowChanged | app.py:1040-1065 | the new state is WindowChanged of the old one |
| CrowdApp.CrowdSenseApp.OnThresholdChanged | app.py:1607-1613 | the confidence becomes value/100, and the detector thread gets the same threshold; its queue, model, path, processing, running and loading flags are kept |
| CrowdApp.CrowdSenseApp.OnHeatmapToggled | app.py:1615-1636 | the new state is HeatmapToggled of the old one |
| CrowdApp.CrowdSenseApp.DisplayDetectionResults | app.py:2232-2301 | the new state is Detected of the old one, and the observed samples grow by one exactly when there is a frame |
| CrowdApp.CrowdSenseApp.RecordDetection | app.py:2236-2281 | the new state is Counted of the old one; what the peak trackers observed grows by the smoothed sample |
| CrowdApp.CrowdSenseApp.ProcessVideoFrame | app.py:2150-2185 | the new state is VideoFrame of the old one; the frame is handed to a ready detector, and every other detector field is kept |
| CrowdApp.CrowdSenseApp.PauseVideo | app.py:1971-1989 | the new state is PauseToggled of the old one |
| CrowdApp.CrowdSenseApp.OnVideoEnded | app.py:2113-2129 | the video is paused with the end label shown |
| CrowdApp.CrowdSenseApp.StopVideo | app.py:1992-2111 | the new state is Stopped of the old one, and the detector's pending frame is dropped; every other detector field is kept |
| CrowdApp.CrowdSenseApp.LoadVideoFromPath | app.py:1819-1933 | the new state is Loaded of the old one; the detector's pending frame is dropped and every other detector field is kept |
| CrowdApp.CrowdSenseApp.RestartVideo | app.py:1145-1312 | the new state is Restarted of the old one; the detector's pending frame is dropped exactly when an open video's read-back fails, and every other detector field is kept |
| CrowdApp.CrowdSenseApp.ReadBackFirstFrame | app.py:1222-1300 | the new state is AfterFirstRead of the old one |
| CrowdApp.CrowdSenseApp.ResetForRestart | app.py:1153-1219 | the new state is RestartReset of the old one: the clock, graph, accumulators, peaks and alert flag reset, threshold_history kept |
| CrowdApp.CrowdSenseApp.DetectFirstFrame | app.py:1226-1264 | the new state is FirstFrameDetected of the old one |
| CrowdApp.CrowdSenseApp.ReseedHistory | app.py:1238-1255 | the new state is Reseeded of the old one |
| CrowdApp.InitialStateIsValid | app.py:80-123 | the state of a new window is valid |
| CrowdApp.StopRestoresInitial | app.py:1992-2111 | stopping gives the new-window state except for the four kept settings. Stopping twice is the same as stopping once, and the result is valid. |
| CrowdApp.LoadStartsFreshSession | app.py:1819-1933 | a load leaves nothing of the previous session (alert log, peaks, accumulators, history, graph), and plays exactly when the file exists and opens. A failed load is a stop. |
| CrowdApp.RestartKeepsAlertLog | app.py:1183-1255 | restart keeps threshold_history as a prefix and adds at most the first frame's crossing; the clock restarts at 0, the peaks reset, and the graph stays empty, since update_people_graph records nothing while the restart holds the video paused |
| CrowdApp.RestartPauseRule | app.py:1287-1300 | after restart, the video plays only when the reader thread restarts and the video was playing or at its end (`was_paused and not video_was_at_end`); a video at its end always plays |
| CrowdApp.RestartReseedsHistory | app.py:1238-1255 | with a ready detector and results, the history is the single count of the first frame's kept boxes, and it is also the smoothed count |
| CrowdApp.RestartFailedReadStops | app.py:1222-1305 | a failed read of the first frame stops the video, and the reader thread is not restarted |
| CrowdApp.SettingsForceNormal | app.py:1005-1033 | threshold edits and disabling detection force Normal and log nothing, whatever the count; enabling changes no alert state |
| CrowdApp.WindowChangeKeepsLatest | app.py:1040-1054 | resizing keeps exactly the last min(v, n) counts in order and smooths them at once; an empty history smooths to 0 |
| CrowdApp.DetectAll | app.py:2232-2301 | any run of detection results leaves a valid state with the window size unchanged |
| CrowdApp.DetectionsSmoothLastWindow | app.py:2242-2253 | after any run of detection results, the history is the last min(window, n) of all raw counts and the smoothed count is their rounded mean |
| CrowdApp.PausedFreezesTimeline | app.py:2150-2166 | while paused, frames leave the clock and the graph unchanged |
| Widgets.Press | ui/widgets.py:65-74 | checked flips, and toggled emits the new state, exactly when the switch is enabled and the left button is pressed; otherwise nothing changes |
| Widgets.PressTwiceRestores | ui/widgets.py:65-74 | two left clicks on an enabled switch restore it, announcing both states in turn |
| Widgets.ToggleSwitch.constructor | ui/widgets.py:22-30 | a new switch is unchecked and enabled |
| Widgets.ToggleSwitch.MousePress | ui/widgets.py:65-74 | the new checked state and the emission are those of Press |
| Widgets.ToggleSwitch.SetChecked | ui/widgets.py:76-80 | checked becomes c without emitting, so repeating it changes nothing |
| Widgets.ToggleSwitch.SetEnabled | ui/widgets.py:65-66 | enabled becomes e, and checked is kept |
| Widgets.SetValueEffect | ui/widgets.py:106-112 | the stored value is max(minimum, min(maximum, v)); valueChanged fires, carrying it, exactly when it differs from the old value |
| Widgets.SetValueIdempotent | ui/widgets.py:109-112 | setting the same value twice emits at most once |
| Widgets.MouseValue | ui/widgets.py:229-233 | the mouse maps into [minimum, maximum]: minimum at x ≤ 0, maximum at x ≥ width |
| Widgets.MouseValueMonotone | ui/widgets.py:229-233 | moving the mouse right never lowers the value |
| Widgets.ModernBoxedSlider.constructor | ui/widgets.py:91-104 | range 10..90 with value 40, inside the range |
| Widgets.ModernBoxedSlider.SetValue | ui/widgets.py:106-112 | the value and emission are SetValueEffect's, and the range is kept |
| Widgets.ModernBoxedSlider.SetRange | ui/widgets.py:118-123 | the new range is stored and the value re-clamped into it, without emitting |
| Widgets.ModernBoxedSlider.UpdateValueFromMouse | ui/widgets.py:229-234 | the value is set to MouseValue through setValue |
| Widgets.Lower | ui/widgets.py:398 | str.lower on ASCII: same length, each letter lowered |
| Widgets.DroppedVideo | ui/widgets.py:388-401 | a path is forwarded exactly when the drop has URLs, the label has an app, and the FIRST URL ends with a video extension (case-insensitive); the forwarded path is then that first URL |
| Widgets.LowerIdempotent | ui/widgets.py:398 | lowering twice is lowering once |
| Widgets.FilterIgnoresCase | ui/widgets.py:398 | a path is accepted exactly when its lower-cased form is |
| Widgets.OnlyFirstDropCounts | ui/widgets.py:394-401 | URLs after the first never change the outcome |
| Widgets.UpperCaseExtensionAccepted | ui/widgets.py:398-401 | any name ending in ".MP4" is accepted |
| Widgets.FurtherSuffixRejected | ui/widgets.py:398-401 | any name ending in ".mp4.txt" is rejected |
| Threads.ProgressPercent | core/threads.py:39-42 | nothing is emitted exactly when total_size ≤ 0. Otherwise the percentage is at most 100, and at least 0 for non-negative counts. It is 100 once the download reaches the total, and below that it is the truncated share. |
| Threads.TruncDiv | core/threads.py:41 | Python's int(a / b): for a ≥ 0 the floor quotient, for a < 0 at most 0 |
| Threads.PercentBounds | core/threads.py:41-42 | the percentage before the cap is the truncated share, and at least 100 once the total is reached |
| Threads.ToBox | core/threads.py:160-161 | each corner is int() of the float corner |
| Threads.KeptAppend | core/threads.py:164-176 | filtering distributes over concatenation, so detector order is kept |
| Threads.KeptMembers | core/threads.py:164-176 | a box is kept exactly when some detection with confidence strictly above the threshold gives it; nothing is kept exactly when no confidence is above it |
| Threads.AtThresholdDropped | core/threads.py:166 | a detection at exactly the threshold is dropped |
| Threads.FilterDetections | core/threads.py:153-176 | the nested loops yield the kept boxes of all results in order, and the people count is their number |
| Threads.Submit | core/threads.py:109-111 | add_frame leaves the queue as it was, or exactly [frame], so it never grows past one |
| Threads.LatestIndex | core/threads.py:109-111 | the position of the last submitted frame: a real frame, with only None after it |
| Threads.SubmitAllKeepsLatest | core/threads.py:109-111 | over any run of add_frame calls, the queue holds at most one frame. During a detection it is unchanged. Otherwise it holds exactly the latest frame submitted, or what it held when only None was submitted. |
| Threads.OnlyLatestFrameSurvives | core/threads.py:111 | submitting F1, F2, F3 before any processing leaves only F3 pending |
| Threads.YoloDetectionThread.constructor | core/threads.py:94-102 | empty queue, not running, no model, threshold 0.4 |
| Threads.YoloDetectionThread.SetModelPath | core/threads.py:104-107 | the path is stored and the model always cleared to None |
| Threads.YoloDetectionThread.AddFrame | core/threads.py:109-111 | the queue becomes Submit of the old one; nothing else changes |
| Threads.YoloDetectionThread.SetConfidenceThreshold | core/threads.py:113-115 | the threshold is stored; nothing else changes |
| Threads.YoloDetectionThread.Stop | core/threads.py:117-119 | running is cleared; nothing else changes |
| Threads.YoloDetectionThread.ClearQueue | app.py:2005-2006 | stop_video's clearing of the detector's pending frames empties the queue and changes no other field |
| Threads.YoloDetectionThread.LoadModel | core/threads.py:121-135 | a load in progress returns at once with no signal. Otherwise exactly one model_loaded signal carries the outcome, and loading_model ends false. |
| Threads.YoloDetectionThread.Start | core/threads.py:137-142 | the thread runs; a loaded model is kept with no signal; with none, a load is attempted unless one is under way (then no signal and still no model); a failed load leaves no model; the loading flag ends as it began |
| Threads.YoloDetectionThread.ProcessNext | core/threads.py:144-186 | with a frame waiting and a model, the frame is popped. A successful inference emits that frame with its kept boxes and their count. No frame, no model or a failed inference emits nothing. |
| Threads.HandOffExample | core/threads.py:109-176 | a frame submitted to an idle detector with a model comes back with its kept boxes and their count |
| Threads.VideoFrameThread.constructor | core/threads.py:52-57 | no capture, not running, not paused |
| Threads.VideoFrameThread.SetCapture | core/threads.py:59-60 | the capture is stored |
| Threads.VideoFrameThread.Pause | core/threads.py:66-67 | the paused flag is set; nothing else changes |
| Threads.VideoFrameThread.Stop | core/threads.py:62-64 | running is cleared |
| Threads.VideoFrameThread.Run | core/threads.py:69-87 | the loop emits the frames from the old position onward, in order. Unpaused on an open capture, every turn before the end reads exactly one frame. The end is signalled at most once, exactly when the loop stops running, at the end of the frames. Nothing is read while paused or without an open capture. Given enough turns, an unpaused open capture reaches the end. |

## Left out

- Drawing and the UI: widget construction, painting, styles, the colour
  map and overlay blending of process_frame_with_heatmap, the box labels
  drawn by the detector thread, message boxes and file dialogs.
  `process_frame_with_heatmap` is modelled only for its accumulator side.
- pyqtgraph ranges and the peak markers, and the export of images and
  plots. These are plotting side effects.
- OpenCV and numpy internals. `cv2.GaussianBlur`, `cv2.resize` and
  `np.sqrt` are parameters with the assumptions stated above.
- Floating point. Grid cells, confidences, fps and times are `real`, so
  rounding error and NaN are not modelled.
- Threads.ProgressPercent: `count * block_size * 100 / total_size` is exact
  rational division truncated toward zero, not a double.
- YOLO inference and model download. The detector's results, and whether
  a model loads, are inputs.
- Concurrency. QThread start, wait and msleep, and the race on
  `processing` in `add_frame`, are left out. Each thread's loop is a
  sequence of steps on one object.
- File-system checks and capture opening. These are the `exists_` and
  `opens` inputs, and the frame rate is an input.
- The reader thread's capture is the same object as the window's. The
  model keeps them apart: what the window reads back on restart is a
  parameter.
- QUrl.toLocalFile is not modelled: the drop filter takes paths.
  str.lower is modelled on ASCII letters only.
- people_count (the raw count label) and the other labels are display
  only.
- load_video_from_path's kick-off of a model load is not modelled.
  LoadVideoFromPath models the stop, the open and the clock.
- start_video is not modelled. It only starts threads and sets flags that
  already belong to load.
- CrowdApp.Restarted: an exception during the first-frame detection is
  modelled only as an inference that returns nothing. The restart's
  other exception paths are not modelled.
- CrowdApp.CrowdSenseApp.OnSmoothingWindowChanged requires value ≥ 1. The
  slider's range is 1..60 (app.py:959), so a window of 0 never arrives.
- CrowdApp.CrowdSenseApp.UpdateHeatmap works on values. The in-place
  `*=`, `+=` and `/=` on the accumulator arrays are modelled as the new
  grids they produce. The splat loops do stay in place on an array
  (Heatmap.SplatOne, Heatmap.SplatRow).
- Widgets.ModernBoxedSlider.UpdateValueFromMouse requires a positive
  width. The widget's minimum width is 150 (ui/widgets.py:93).
- Threads.VideoFrameThread.Run: the loop runs for a bounded number of
  turns (`iterations`). A run that never ends while paused is this bound
  taken as large as needed.
- Alerts.UpdateStatus models the evidently intended timestamp (see
  Findings), and the rest of the model uses it. With the NameError kept,
  the upward crossing in display_detection_results (app.py:2265) and in
  on_smoothing_window_changed (app.py:1065) also raises out of those
  handlers. In restart_video the check (app.py:1256) runs inside the
  `try` of app.py:1226-1262, so the error is caught. The flag stays
  raised, nothing is logged, the heatmap step is skipped, and the raw
  frame is shown. Alerts.UpdateStatusAsWritten shows the failing call.

- CrowdApp.SettingsForceNormal: a threshold edit and disabling detection
  do not re-evaluate the alert against the latest smoothed count. The
  code forces it to Normal (`update_crowd_alert_status(False)`,
  app.py:1015, 1033), and the model does the same. An alert that should
  still hold is raised again, and logged again, at the next detection.

## Findings

| source | as written | input that shows it | evidently intended | confidence | as-written member | corrected member |
|---|---|---|---|---|---|---|
| app.py:1112 | `format_time_for_filename` is defined in the class body without `self` (app.py:1067) and is called as a bare name. Module scope does not define that name, so the call raises NameError. The alert flag was already set (app.py:1083) and no record is appended. | Alert off, threshold 10, smoothed count 12 | The record {timestamp, 12, 10} is appended to threshold_history | not executed | Alerts.AsWrittenLosesFirstAlert | Alerts.UpdateStatus |
