/** The worker threads of core/threads.py: the download progress callback,
    the frame reader loop of VideoFrameThread, and the single-slot frame
    hand-off and box filter of YoloDetectionThread. Each thread's run()
    loop is modelled as the sequence of its iterations on one object; the
    other thread and the clock are not modelled. */
module Threads {

  import opened Types
  import opened Numeric

  // ---------------------------------------------------------------------
  // ModelDownloadThread

  /** progress_callback(count, block_size, total_size) (threads.py:39-42):
      no emission when the total size is unknown (not positive), otherwise
      the downloaded share in whole percent, truncated and capped at 100.
      Python's `int(a / b)` on integers is the exact quotient truncated
      toward zero, written here on integers. */
  function ProgressPercent(count: int, blockSize: int, totalSize: int): (r: Option<int>)
    ensures r.Some? <==> totalSize > 0
    ensures r.Some? ==> r.value <= 100
    ensures r.Some? && count >= 0 && blockSize >= 0 ==> r.value >= 0
    ensures r.Some? && count * blockSize >= totalSize ==> r.value == 100
    ensures r.Some? && 0 <= count * blockSize < totalSize ==>
      r.value * totalSize <= count * blockSize * 100 < r.value * totalSize + totalSize
  {
    if totalSize > 0 then
      var n := count * blockSize;
      ProductNonNeg(count, blockSize);
      var t := TruncDiv(n * 100, totalSize);
      PercentBounds(n, totalSize, t);
      Some(Min(t, 100))
    else None
  }

  /** Division truncating toward zero, as `int(a / b)` for b > 0. */
  function TruncDiv(a: int, b: int): (t: int)
    requires b > 0
    ensures a >= 0 ==> t >= 0 && t * b <= a < t * b + b
    ensures a < 0 ==> t <= 0
  {
    if a >= 0 then DivBounds(a, b); a / b else DivBounds(-a, b); -((-a) / b)
  }

  /** Euclidean division of a non-negative integer, as bounds. */
  lemma DivBounds(a: int, b: int)
    requires a >= 0 && b > 0
    ensures a / b >= 0 && (a / b) * b <= a < (a / b) * b + b
  {
  }

  /** The percentage before the cap, read back on integers. */
  lemma PercentBounds(n: int, total: int, t: int)
    requires total > 0 && t == TruncDiv(n * 100, total)
    ensures n < 0 ==> t <= 0
    ensures n >= 0 ==> t >= 0 && t * total <= n * 100 < t * total + total
    ensures n >= total ==> t >= 100
  {
    if n >= total {
      MulMono(total, n, 100);
      MulCancel(t + 1, 100, total);
    }
  }

  lemma MulMono(a: int, b: int, k: int)
    requires 0 <= a <= b && k >= 0
    ensures a * k <= b * k
  {
  }

  lemma MulCancel(a: int, b: int, k: int)
    requires k > 0 && a * k > b * k
    ensures a > b
  {
  }

  lemma ProductNonNeg(a: int, b: int)
    ensures a >= 0 && b >= 0 ==> a * b >= 0
  {
  }

  // ---------------------------------------------------------------------
  // YoloDetectionThread: the box filter

  /** The detection threshold the thread starts with (threads.py:102). */
  const DefaultConfidence := 0.4

  /** `int(x1), int(y1), int(x2), int(y2)` on a box's float corners
      (threads.py:160-161). */
  function ToBox(d: Detection): (b: Box)
    ensures d.x1 >= 0.0 ==> b.x1 as real <= d.x1 < b.x1 as real + 1.0
    ensures d.y1 >= 0.0 ==> b.y1 as real <= d.y1 < b.y1 as real + 1.0
    ensures d.x2 >= 0.0 ==> b.x2 as real <= d.x2 < b.x2 as real + 1.0
    ensures d.y2 >= 0.0 ==> b.y2 as real <= d.y2 < b.y2 as real + 1.0
  {
    Box(Trunc(d.x1), Trunc(d.y1), Trunc(d.x2), Trunc(d.y2))
  }

  /** The boxes of every result, one result after the other. */
  function Flatten(results: seq<seq<Detection>>): seq<Detection>
  {
    if results == [] then [] else Flatten(results[..|results| - 1]) + results[|results| - 1]
  }

  /** The boxes kept from a run of detections: those whose confidence is
      STRICTLY above the threshold, truncated, in detection order. */
  function Kept(ds: seq<Detection>, threshold: real): seq<Box>
  {
    if ds == [] then []
    else
      var d := ds[|ds| - 1];
      Kept(ds[..|ds| - 1], threshold) + (if d.confidence > threshold then [ToBox(d)] else [])
  }

  /** The filter works detection by detection: the kept boxes of a
      concatenation are the kept boxes of each part, in order. */
  lemma {:induction false} KeptAppend(a: seq<Detection>, b: seq<Detection>, threshold: real)
    ensures Kept(a + b, threshold) == Kept(a, threshold) + Kept(b, threshold)
    decreases |b|
  {
    if b == [] {
      assert a + b == a;
    } else {
      var b' := b[..|b| - 1];
      assert (a + b)[..|a + b| - 1] == a + b';
      assert (a + b)[|a + b| - 1] == b[|b| - 1];
      KeptAppend(a, b', threshold);
    }
  }

  /** A box is kept exactly when some detection above the threshold
      truncates to it, and no more boxes are kept than there were
      detections. */
  lemma {:induction false} KeptMembers(ds: seq<Detection>, threshold: real)
    ensures |Kept(ds, threshold)| <= |ds|
    ensures forall b :: b in Kept(ds, threshold) <==>
      exists i :: 0 <= i < |ds| && ds[i].confidence > threshold && ToBox(ds[i]) == b
    ensures Kept(ds, threshold) == [] <==> forall i :: 0 <= i < |ds| ==> ds[i].confidence <= threshold
    decreases |ds|
  {
    if ds != [] {
      var pre, d := ds[..|ds| - 1], ds[|ds| - 1];
      KeptMembers(pre, threshold);
      assert forall i :: 0 <= i < |pre| ==> ds[i] == pre[i];
      assert ds[|pre|] == d;
      forall b | exists i :: 0 <= i < |ds| && ds[i].confidence > threshold && ToBox(ds[i]) == b
        ensures b in Kept(ds, threshold)
      {
        var i :| 0 <= i < |ds| && ds[i].confidence > threshold && ToBox(ds[i]) == b;
        if i < |pre| {
          assert pre[i].confidence > threshold && ToBox(pre[i]) == b;
        }
      }
    }
  }

  /** A detection AT the threshold is dropped: the comparison is strict. */
  lemma AtThresholdDropped(d: Detection, threshold: real)
    requires d.confidence == threshold
    ensures Kept([d], threshold) == []
  {
  }

  /** The nested loops of run() (threads.py:153-176): every box of every
      result is compared with the threshold in force; the count is the
      number of kept boxes. */
  method FilterDetections(results: seq<seq<Detection>>, threshold: real) returns (count: nat, boxes: seq<Box>)
    ensures boxes == Kept(Flatten(results), threshold)
    ensures count == |boxes|
  {
    count, boxes := 0, [];
    for i := 0 to |results|
      invariant boxes == Kept(Flatten(results[..i]), threshold)
      invariant count == |boxes|
    {
      var rs := results[i];
      assert Flatten(results[..i]) + rs[..0] == Flatten(results[..i]);
      for j := 0 to |rs|
        invariant boxes == Kept(Flatten(results[..i]) + rs[..j], threshold)
        invariant count == |boxes|
      {
        var d := rs[j];
        assert (Flatten(results[..i]) + rs[..j + 1])[..|Flatten(results[..i]) + rs[..j + 1]| - 1]
          == Flatten(results[..i]) + rs[..j];
        if d.confidence > threshold {
          boxes := boxes + [ToBox(d)];
          count := count + 1;
        }
      }
      assert rs[..|rs|] == rs;
      assert results[..i + 1][..i] == results[..i];
    }
    assert results[..|results|] == results;
  }

  // ---------------------------------------------------------------------
  // YoloDetectionThread: the frame hand-off

  /** add_frame(frame) (threads.py:109-111) on the queue: a frame that
      arrives while no detection is running REPLACES whatever is queued;
      a missing frame, or one arriving during a detection, is ignored. */
  function Submit(queue: seq<Frame>, processing: bool, frame: Option<Frame>): (r: seq<Frame>)
    ensures |queue| <= 1 ==> |r| <= 1
    ensures r == queue || (frame.Some? && r == [frame.value])
  {
    if frame.Some? && !processing then [frame.value] else queue
  }

  /** Several add_frame calls in turn, with no detection in between. */
  function SubmitAll(queue: seq<Frame>, processing: bool, frames: seq<Option<Frame>>): seq<Frame>
  {
    if frames == [] then queue
    else Submit(SubmitAll(queue, processing, frames[..|frames| - 1]), processing, frames[|frames| - 1])
  }

  /** The position of the last frame actually submitted in a run of
      add_frame calls, or -1 when every call passed None. */
  function LatestIndex(frames: seq<Option<Frame>>): (k: int)
    ensures -1 <= k < |frames|
    ensures k >= 0 ==> frames[k].Some?
    ensures forall j :: k < j < |frames| ==> frames[j].None?
    decreases |frames|
  {
    if frames == [] then -1
    else if frames[|frames| - 1].Some? then |frames| - 1
    else
      var pre := frames[..|frames| - 1];
      assert forall i :: 0 <= i < |pre| ==> frames[i] == pre[i];
      LatestIndex(pre)
  }

  /** The queue never holds more than one frame, and when no detection is
      running it holds the LATEST frame submitted (or what it held, when
      nothing was submitted); during a detection nothing is accepted. */
  lemma {:induction false} SubmitAllKeepsLatest(queue: seq<Frame>, processing: bool, frames: seq<Option<Frame>>)
    ensures var r := SubmitAll(queue, processing, frames);
      && (|queue| <= 1 ==> |r| <= 1)
      && (processing ==> r == queue)
      && (!processing ==> var k := LatestIndex(frames); r == if k >= 0 then [frames[k].value] else queue)
    decreases |frames|
  {
    if frames != [] {
      var pre := frames[..|frames| - 1];
      SubmitAllKeepsLatest(queue, processing, pre);
      if frames[|frames| - 1].None? {
        assert LatestIndex(frames) == LatestIndex(pre);
        assert forall i :: 0 <= i < |pre| ==> frames[i] == pre[i];
      }
    }
  }

  /** Three frames submitted before the detector takes one: only the third
      is ever processed. */
  lemma OnlyLatestFrameSurvives(f1: Frame, f2: Frame, f3: Frame)
    ensures SubmitAll([], false, [Some(f1), Some(f2), Some(f3)]) == [f3]
  {
  }

  /** What detection_ready carries: the frame, the people count and the
      kept boxes. */
  datatype DetectionReady = DetectionReady(frame: Frame, count: nat, boxes: seq<Box>)

  class YoloDetectionThread {
    var frameQueue: seq<Frame>
    var running: bool
    /** The loaded model, known by the path it was loaded from. */
    var model: Option<string>
    var modelPath: string
    var processing: bool
    var loadingModel: bool
    var confidenceThreshold: real

    /** At most one frame waits for the detector. */
    predicate Valid()
      reads this
    {
      |frameQueue| <= 1
    }

    /** __init__(model_path) (threads.py:94-102). */
    constructor(path: string)
      ensures Valid()
      ensures frameQueue == [] && !running && model == None && modelPath == path
      ensures !processing && !loadingModel && confidenceThreshold == DefaultConfidence
    {
      frameQueue := [];
      running := false;
      model := None;
      modelPath := path;
      processing := false;
      loadingModel := false;
      confidenceThreshold := DefaultConfidence;
    }

    /** set_model_path (threads.py:104-107): the old model is dropped. */
    method SetModelPath(path: string)
      modifies this
      ensures modelPath == path && model == None
      ensures frameQueue == old(frameQueue) && running == old(running) && processing == old(processing)
      ensures loadingModel == old(loadingModel) && confidenceThreshold == old(confidenceThreshold)
    {
      modelPath := path;
      model := None;
    }

    /** add_frame (threads.py:109-111). */
    method AddFrame(frame: Option<Frame>)
      requires Valid()
      modifies this
      ensures Valid()
      ensures frameQueue == Submit(old(frameQueue), processing, frame)
      ensures running == old(running) && model == old(model) && modelPath == old(modelPath)
      ensures processing == old(processing) && loadingModel == old(loadingModel)
      ensures confidenceThreshold == old(confidenceThreshold)
    {
      if frame.Some? && !processing {
        frameQueue := [frame.value];
      }
    }

    /** set_confidence_threshold (threads.py:113-115). */
    method SetConfidenceThreshold(threshold: real)
      modifies this
      ensures confidenceThreshold == threshold
      ensures frameQueue == old(frameQueue) && running == old(running) && model == old(model)
      ensures modelPath == old(modelPath) && processing == old(processing) && loadingModel == old(loadingModel)
    {
      confidenceThreshold := threshold;
    }

    /** stop (threads.py:117-119); the join is not modelled. */
    method Stop()
      modifies this
      ensures !running
      ensures frameQueue == old(frameQueue) && model == old(model) && modelPath == old(modelPath)
      ensures processing == old(processing) && loadingModel == old(loadingModel)
      ensures confidenceThreshold == old(confidenceThreshold)
    {
      running := false;
    }

    /** The app's `yolo_thread.frame_queue = []` when a video is stopped. */
    method ClearQueue()
      requires Valid()
      modifies this
      ensures Valid() && frameQueue == []
      ensures running == old(running) && model == old(model) && modelPath == old(modelPath)
      ensures processing == old(processing) && loadingModel == old(loadingModel)
      ensures confidenceThreshold == old(confidenceThreshold)
    {
      frameQueue := [];
    }

    /** load_model (threads.py:121-135); `loads` says whether YOLO(path)
        succeeds. A call made while a load is under way returns at once;
        otherwise exactly one model_loaded signal is emitted, carrying the
        outcome, a failed load keeps the previous model, and the loading
        flag is clear again afterwards. */
    method LoadModel(loads: bool) returns (signal: Option<bool>)
      modifies this
      ensures old(loadingModel) ==> signal == None && model == old(model) && loadingModel
      ensures !old(loadingModel) ==> signal == Some(loads) && !loadingModel
      ensures !old(loadingModel) ==> model == (if loads then Some(modelPath) else old(model))
      ensures frameQueue == old(frameQueue) && running == old(running) && modelPath == old(modelPath)
      ensures processing == old(processing) && confidenceThreshold == old(confidenceThreshold)
    {
      if loadingModel {
        return None;
      }
      loadingModel := true;
      if loads {
        model := Some(modelPath);
        signal := Some(true);
      } else {
        signal := Some(false);
      }
      loadingModel := false;
    }

    /** The start of run() (threads.py:137-142): the model is loaded only
        when none is loaded yet. */
    method Start(loads: bool) returns (signal: Option<bool>)
      modifies this
      ensures running
      ensures old(model).Some? ==> signal == None && model == old(model)
      ensures old(model).None? && !old(loadingModel) ==> signal == Some(loads)
      ensures old(model).None? && !old(loadingModel) && loads ==> model == Some(modelPath)
      ensures old(model).None? && (old(loadingModel) || !loads) ==> model == None
      ensures old(model).None? && old(loadingModel) ==> signal == None
      ensures loadingModel == old(loadingModel)
      ensures frameQueue == old(frameQueue) && modelPath == old(modelPath)
      ensures processing == old(processing) && confidenceThreshold == old(confidenceThreshold)
    {
      running := true;
      signal := None;
      if model.None? {
        signal := LoadModel(loads);
      }
    }

    /** One iteration of the run() loop (threads.py:144-186). `results` is
        what the model returns for the queued frame, None when inference
        raises. With a frame queued and a model loaded, the frame is taken
        off the queue and, unless inference failed, detection_ready carries
        it with the kept boxes and their number; otherwise nothing happens. */
    method ProcessNext(results: Option<seq<seq<Detection>>>) returns (emitted: Option<DetectionReady>)
      requires Valid()
      modifies this
      ensures Valid()
      ensures |old(frameQueue)| > 0 && model.Some? ==> frameQueue == old(frameQueue)[1..]
      ensures |old(frameQueue)| > 0 && model.Some? && results.Some? ==>
        emitted == Some(DetectionReady(old(frameQueue)[0], |Kept(Flatten(results.value), confidenceThreshold)|,
                                       Kept(Flatten(results.value), confidenceThreshold)))
      ensures |old(frameQueue)| == 0 || model.None? || results.None? ==> emitted == None
      ensures |old(frameQueue)| == 0 || model.None? ==> frameQueue == old(frameQueue) && processing == old(processing)
      ensures |old(frameQueue)| > 0 && model.Some? ==> !processing
      ensures running == old(running) && model == old(model) && modelPath == old(modelPath)
      ensures loadingModel == old(loadingModel) && confidenceThreshold == old(confidenceThreshold)
    {
      emitted := None;
      if |frameQueue| > 0 && model.Some? {
        processing := true;
        var frame := frameQueue[0];
        frameQueue := frameQueue[1..];
        if results.Some? {
          var count, boxes := FilterDetections(results.value, confidenceThreshold);
          emitted := Some(DetectionReady(frame, count, boxes));
        }
        processing := false;
      }
    }
  }

  /** A submitted frame reaches the detector: after add_frame on an idle
      thread with a model, the next iteration processes exactly that frame. */
  method HandOffExample(f: Frame, ds: seq<Detection>) returns (e: Option<DetectionReady>)
    ensures e == Some(DetectionReady(f, |Kept(ds, DefaultConfidence)|, Kept(ds, DefaultConfidence)))
  {
    var t := new YoloDetectionThread("yolov8n.pt");
    var s := t.Start(true);
    t.AddFrame(Some(f));
    assert Flatten([ds]) == ds by {
      assert [ds][..0] == [];
    }
    e := t.ProcessNext(Some([ds]));
  }

  // ---------------------------------------------------------------------
  // VideoFrameThread

  /** The reader thread together with the capture it reads from: the
      capture is known by whether it is open and by the frames it delivers,
      `position` being the next one. */
  class VideoFrameThread {
    var capOpen: bool
    var frames: seq<Frame>
    var position: nat
    var running: bool
    var paused: bool

    predicate Valid()
      reads this
    {
      position <= |frames|
    }

    /** __init__ (threads.py:52-57): no capture yet. */
    constructor()
      ensures Valid()
      ensures !capOpen && frames == [] && position == 0 && !running && !paused
    {
      capOpen := false;
      frames := [];
      position := 0;
      running := false;
      paused := false;
    }

    /** set_capture (threads.py:59-60), with a capture positioned at `pos`. */
    method SetCapture(isOpen: bool, source: seq<Frame>, pos: nat)
      requires pos <= |source|
      modifies this
      ensures Valid()
      ensures capOpen == isOpen && frames == source && position == pos
      ensures running == old(running) && paused == old(paused)
    {
      capOpen, frames, position := isOpen, source, pos;
    }

    /** pause (threads.py:66-67). */
    method Pause(p: bool)
      modifies this
      ensures paused == p
      ensures capOpen == old(capOpen) && frames == old(frames) && position == old(position) && running == old(running)
    {
      paused := p;
    }

    /** stop (threads.py:62-64); the join is not modelled. */
    method Stop()
      modifies this
      ensures !running
      ensures capOpen == old(capOpen) && frames == old(frames) && position == old(position) && paused == old(paused)
    {
      running := false;
    }

    /** run() (threads.py:69-87) for at most `iterations` turns of its loop
        (each one ends with the 30 ms sleep; a stop() from outside is what
        ends a loop that is paused). While paused nothing is read. Unpaused
        on an open capture, frame_ready carries the capture's frames in
        order, and the first failed read emits video_ended ONCE and ends
        the loop; given enough turns the end is always reached. */
    method Run(iterations: nat) returns (emitted: seq<Frame>, endSignals: nat)
      requires Valid()
      modifies this
      ensures Valid()
      ensures capOpen == old(capOpen) && frames == old(frames) && paused == old(paused)
      ensures old(position) <= position && emitted == frames[old(position)..position]
      ensures endSignals <= 1
      ensures endSignals == 1 <==> !running
      ensures endSignals == 1 ==> position == |frames|
      ensures paused || !capOpen ==> emitted == [] && endSignals == 0
      ensures !paused && capOpen && iterations > |frames| - old(position) ==> endSignals == 1
      ensures !paused && capOpen && endSignals == 0 ==> |emitted| == iterations
    {
      running := true;
      emitted, endSignals := [], 0;
      var turns := 0;
      while running && capOpen && turns < iterations
        invariant Valid()
        invariant capOpen == old(capOpen) && frames == old(frames) && paused == old(paused)
        invariant old(position) <= position && emitted == frames[old(position)..position]
        invariant endSignals <= 1 && (endSignals == 1 <==> !running)
        invariant endSignals == 1 ==> position == |frames|
        invariant paused || !capOpen ==> position == old(position) && endSignals == 0
        invariant !paused && running ==> position - old(position) == turns
        invariant 0 <= turns <= iterations
        decreases iterations - turns
      {
        if !paused {
          if position < |frames| {
            emitted := emitted + [frames[position]];
            position := position + 1;
          } else {
            endSignals := endSignals + 1;
            running := false;
          }
        }
        turns := turns + 1;
      }
    }
  }
}
