/** The page-level state machine around the detector callback: the model
    configurations, the smoothing gate, the frame counter, the 33 ms throttle
    and the per-frame processing of onResults. */
module Tracking {
  import opened Landmarks
  import opened Derived
  import opened Smoothing
  import opened Overlay

  /** Where the frames come from. */
  datatype Source = Webcam | Image | Video

  /** The three selectable detector configurations. */
  datatype ModelName = Full | Upper | Lite

  datatype ModelConfig = ModelConfig(
    modelComplexity: nat,
    smoothLandmarks: bool,
    enableSegmentation: bool,
    smoothSegmentation: bool,
    refineFaceLandmarks: bool,
    minDetectionConfidence: real,
    minTrackingConfidence: real)

  /** modelConfigs. */
  function Config(m: ModelName): ModelConfig {
    match m
    case Full => ModelConfig(2, true, true, true, true, 0.5, 0.5)
    case Upper => ModelConfig(1, true, false, false, true, 0.6, 0.6)
    case Lite => ModelConfig(0, false, false, false, false, 0.7, 0.7)
  }

  /** Lighter configurations trade complexity for stricter confidences; only
      the lite one turns off smoothing and face refinement, and only the full
      one segments. */
  lemma ConfigOrdering()
    ensures Config(Full).modelComplexity > Config(Upper).modelComplexity > Config(Lite).modelComplexity
    ensures Config(Full).minDetectionConfidence < Config(Upper).minDetectionConfidence < Config(Lite).minDetectionConfidence
    ensures forall m :: Config(m).minTrackingConfidence == Config(m).minDetectionConfidence
    ensures forall m :: Config(m).smoothLandmarks <==> m != Lite
    ensures forall m :: Config(m).refineFaceLandmarks <==> m != Lite
    ensures forall m :: Config(m).enableSegmentation <==> m == Full
    ensures forall m :: Config(m).smoothSegmentation <==> m == Full
  {
  }

  /** The smoothing gate of onResults: smooth unless the source is a still
      image and the configuration turns smoothing off. */
  function ShouldSmooth(source: Source, m: ModelName): (on: bool)
    ensures !on <==> source == Image && m == Lite
  {
    source != Image || Config(m).smoothLandmarks
  }

  const ThrottleMs: real := 33.0
  const FpsWindowMs: real := 1000.0

  /** The throttle: a result is processed only strictly more than 33 ms
      after the last processed one. */
  predicate Admits(lastDrawTime: real, now: real) {
    now - lastDrawTime > ThrottleMs
  }

  /** The new lastDrawTime after a call at `now`. */
  function ThrottleStep(lastDrawTime: real, now: real): (r: real)
    ensures r >= lastDrawTime
    ensures r == now <==> Admits(lastDrawTime, now) || now == lastDrawTime
  {
    if Admits(lastDrawTime, now) then now else lastDrawTime
  }

  /** The call times, of a sequence of calls, that get processed. */
  function Admitted(last: real, times: seq<real>): (r: seq<real>)
    ensures |r| <= |times|
    decreases |times|
  {
    if times == [] then []
    else if Admits(last, times[0]) then [times[0]] + Admitted(times[0], times[1..])
    else Admitted(last, times[1..])
  }

  /** lastDrawTime after a sequence of calls. */
  function LastDraw(last: real, times: seq<real>): real
    decreases |times|
  {
    if times == [] then last else LastDraw(ThrottleStep(last, times[0]), times[1..])
  }

  /** Processed calls are more than 33 ms apart, and the first is more than
      33 ms after the initial lastDrawTime. */
  lemma {:induction false} AdmittedSpaced(last: real, times: seq<real>)
    ensures var r := Admitted(last, times);
      (|r| > 0 ==> r[0] - last > ThrottleMs) &&
      forall i :: 0 <= i < |r| - 1 ==> r[i + 1] - r[i] > ThrottleMs
    decreases |times|
  {
    if times != [] {
      if Admits(last, times[0]) {
        AdmittedSpaced(times[0], times[1..]);
      } else {
        AdmittedSpaced(last, times[1..]);
      }
    }
  }

  /** Processed calls are calls that happened. */
  lemma {:induction false} AdmittedFromCalls(last: real, times: seq<real>)
    ensures forall x :: x in Admitted(last, times) ==> x in times
    decreases |times|
  {
    if times != [] {
      if Admits(last, times[0]) {
        AdmittedFromCalls(times[0], times[1..]);
      } else {
        AdmittedFromCalls(last, times[1..]);
      }
    }
  }

  /** lastDrawTime ends at the last processed call, or where it started. */
  lemma {:induction false} LastDrawIsLastAdmitted(last: real, times: seq<real>)
    ensures var r := Admitted(last, times);
      LastDraw(last, times) == if r == [] then last else r[|r| - 1]
    decreases |times|
  {
    if times != [] {
      if Admits(last, times[0]) {
        LastDrawIsLastAdmitted(times[0], times[1..]);
      } else {
        LastDrawIsLastAdmitted(last, times[1..]);
      }
    }
  }

  /** A burst of calls all within 33 ms of the initial lastDrawTime is
      dropped as a whole. */
  lemma {:induction false} BurstDropped(last: real, times: seq<real>)
    requires forall i :: 0 <= i < |times| ==> times[i] - last <= ThrottleMs
    ensures Admitted(last, times) == [] && LastDraw(last, times) == last
    decreases |times|
  {
    if times != [] {
      BurstDropped(last, times[1..]);
    }
  }

  /** The frame counter: frames since startTime and the last published rate. */
  datatype FpsCounter = FpsCounter(frameCount: nat, startTime: real, fps: nat)

  /** One processed frame: count it; once a second has passed, publish the
      count including this frame and restart the window at `now`. */
  function CountFrame(c: FpsCounter, now: real): FpsCounter {
    var n := c.frameCount + 1;
    if now - c.startTime >= FpsWindowMs then FpsCounter(0, now, n) else c.(frameCount := n)
  }

  function CountFrames(c: FpsCounter, times: seq<real>): FpsCounter {
    if times == [] then c else CountFrame(CountFrames(c, times[..|times| - 1]), times[|times| - 1])
  }

  /** Within one window frames are only counted. */
  lemma {:induction false} CountWithinWindow(c: FpsCounter, times: seq<real>)
    requires forall i :: 0 <= i < |times| ==> times[i] - c.startTime < FpsWindowMs
    ensures CountFrames(c, times) == c.(frameCount := c.frameCount + |times|)
  {
    if times != [] {
      var prefix := times[..|times| - 1];
      assert forall i :: 0 <= i < |prefix| ==> prefix[i] == times[i];
      CountWithinWindow(c, prefix);
    }
  }

  /** The first frame a second or more after startTime publishes the number
      of frames of the window, itself included, and starts a new window. */
  lemma FpsIsFramesOfWindow(c: FpsCounter, times: seq<real>, now: real)
    requires forall i :: 0 <= i < |times| ==> times[i] - c.startTime < FpsWindowMs
    requires now - c.startTime >= FpsWindowMs
    ensures CountFrames(c, times + [now]) == FpsCounter(0, now, c.frameCount + |times| + 1)
  {
    CountWithinWindow(c, times);
    assert (times + [now])[..|times|] == times;
  }

  /** The three smoother buffers. */
  datatype Histories = Histories(pose: seq<LandmarkSet>, face: seq<LandmarkSet>, hand: seq<LandmarkSet>)

  /** One gated smoother call: the buffer afterwards and the entry handed on. */
  function SmoothEntry(history: seq<LandmarkSet>, entry: Option<LandmarkSet>, on: bool, windowSize: nat)
    : (r: (seq<LandmarkSet>, Option<LandmarkSet>))
    ensures |history| <= windowSize ==> |r.0| <= windowSize
    ensures r.1.Some? <==> entry.Some?
    ensures !on ==> r == (history, entry)
  {
    if on && entry.Some? then
      var h := Slide(history, entry.value, windowSize);
      (h, Some(SmoothOutput(h, entry.value, windowSize)))
    else (history, entry)
  }

  /** No buffer holds more frames than its smoother's window. */
  predicate WithinWindows(h: Histories) {
    |h.pose| <= PoseWindow && |h.face| <= FaceWindow && |h.hand| <= HandWindow
  }

  /** The smoothing stage of onResults, pose, face, left then right hand; both
      hands go through the one hand buffer. */
  function SmoothStage(h: Histories, r: Results, on: bool): (out: (Histories, Results))
    ensures WithinWindows(h) ==> WithinWindows(out.0)
    ensures out.1.pose.Some? <==> r.pose.Some?
    ensures out.1.face.Some? <==> r.face.Some?
    ensures out.1.leftHand.Some? <==> r.leftHand.Some?
    ensures out.1.rightHand.Some? <==> r.rightHand.Some?
  {
    var pose := SmoothEntry(h.pose, r.pose, on, PoseWindow);
    var face := SmoothEntry(h.face, r.face, on, FaceWindow);
    var left := SmoothEntry(h.hand, r.leftHand, on, HandWindow);
    var right := SmoothEntry(left.0, r.rightHand, on, HandWindow);
    (Histories(pose.0, face.0, right.0), Results(pose.1, face.1, left.1, right.1))
  }

  /** With smoothing off nothing is buffered and nothing is changed. */
  lemma SmoothingOff(h: Histories, r: Results)
    ensures SmoothStage(h, r, false) == (h, r)
  {
  }

  /** With both hands present, a frame ends the hand buffer with the left and
      then the right hand, so the right hand is averaged over the left one. */
  lemma HandsShareBuffer(h: Histories, r: Results)
    requires r.leftHand.Some? && r.rightHand.Some?
    ensures var hand := SmoothStage(h, r, true).0.hand;
      |hand| >= 2 && hand[|hand| - 2] == r.leftHand.value && hand[|hand| - 1] == r.rightHand.value
  {
    var h1 := Slide(h.hand, r.leftHand.value, HandWindow);
    var h2 := Slide(h1, r.rightHand.value, HandWindow);
    assert h1[|h1| - 1] == r.leftHand.value;
    assert |h1 + [r.rightHand.value]| >= 2;
  }

  lemma SlideFull(history: seq<LandmarkSet>, frame: LandmarkSet, windowSize: nat)
    requires |history| == windowSize
    ensures |Slide(history, frame, windowSize)| == windowSize
  {
  }

  lemma SmoothEntryDense(history: seq<LandmarkSet>, entry: Option<LandmarkSet>, windowSize: nat)
    requires entry.Some? && |history| == windowSize
    ensures var e := SmoothEntry(history, entry, true, windowSize);
      |e.0| == windowSize && e.1.Some? && AllPresent(e.1.value)
  {
    SlideFull(history, entry.value, windowSize);
  }

  /** How a processed result ends. */
  datatype Outcome = Dropped | Skipped | Drawn(frame: Frame) | Threw

  /** The page state the callbacks read and write. */
  datatype State = State(
    active: bool,
    lastDrawTime: real,
    counter: FpsCounter,
    histories: Histories,
    published: Option<nat>,
    source: Source,
    model: ModelName)

  /** onResults: nothing while inactive; otherwise count the frame, smooth,
      draw, and publish the point count when drawing did not throw. */
  function OnResultsStep(s: State, r: Results, show: Toggles, t: Topology, minConf: real, now: real): (out: (State, Outcome))
    ensures !s.active ==> out == (s, Skipped)
    ensures out.1 != Dropped
    ensures var s1 := out.0;
      s1.active == s.active && s1.lastDrawTime == s.lastDrawTime && s1.source == s.source && s1.model == s.model
    ensures WithinWindows(s.histories) ==> WithinWindows(out.0.histories)
  {
    if !s.active then (s, Skipped)
    else
      var smoothed := SmoothStage(s.histories, r, ShouldSmooth(s.source, s.model));
      var s1 := s.(counter := CountFrame(s.counter, now), histories := smoothed.0);
      match Render(smoothed.1, show, t, minConf)
      case None => (s1, Threw)
      case Some(f) => (s1.(published := Some(f.totalPoints)), Drawn(f))
  }

  /** throttledOnResults: process only past the throttle; a throw stops
      processing; lastDrawTime moves to `now` whenever the call was admitted. */
  function ThrottledStep(s: State, r: Results, show: Toggles, t: Topology, minConf: real, now: real): (State, Outcome) {
    if !Admits(s.lastDrawTime, now) then (s, Dropped)
    else
      var step := OnResultsStep(s, r, show, t, minConf, now);
      var s1 := if step.1 == Threw then step.0.(active := false) else step.0;
      (s1.(lastDrawTime := now), step.1)
  }

  /** The throttle decides alone whether anything happens, and lastDrawTime
      follows it even when processing threw. */
  lemma ThrottleGate(s: State, r: Results, show: Toggles, t: Topology, minConf: real, now: real)
    ensures var step := ThrottledStep(s, r, show, t, minConf, now);
      (step.1 == Dropped <==> !Admits(s.lastDrawTime, now)) &&
      step.0.lastDrawTime == ThrottleStep(s.lastDrawTime, now) &&
      (step.1 == Dropped ==> step.0 == s)
  {
  }

  /** A throw stops processing and publishes nothing; the smoother buffers
      and the frame counter keep what this frame put in them. */
  lemma ThrowStops(s: State, r: Results, show: Toggles, t: Topology, minConf: real, now: real)
    requires ThrottledStep(s, r, show, t, minConf, now).1 == Threw
    ensures var s1 := ThrottledStep(s, r, show, t, minConf, now).0;
      !s1.active && s1.published == s.published &&
      s1.histories == SmoothStage(s.histories, r, ShouldSmooth(s.source, s.model)).0 &&
      s1.counter == CountFrame(s.counter, now)
  {
  }

  /** Drawing throws exactly when a shown pose or hand set, after smoothing,
      has an empty entry. */
  lemma ThrowsExactly(s: State, r: Results, show: Toggles, t: Topology, minConf: real, now: real)
    requires s.active
    ensures OnResultsStep(s, r, show, t, minConf, now).1 == Threw <==>
      Throws(SmoothStage(s.histories, r, ShouldSmooth(s.source, s.model)).1, show)
  {
  }

  /** Once the pose and hand buffers are full and smoothing is on, every
      pose and hand set is a list of means, so drawing cannot throw. */
  lemma FullBuffersNeverThrow(s: State, r: Results, show: Toggles, t: Topology, minConf: real, now: real)
    requires s.active && ShouldSmooth(s.source, s.model)
    requires |s.histories.pose| == PoseWindow && |s.histories.hand| == HandWindow
    ensures OnResultsStep(s, r, show, t, minConf, now).1 != Threw
  {
    var h := s.histories;
    if r.pose.Some? {
      SmoothEntryDense(h.pose, r.pose, PoseWindow);
    }
    var left := SmoothEntry(h.hand, r.leftHand, true, HandWindow);
    if r.leftHand.Some? {
      SmoothEntryDense(h.hand, r.leftHand, HandWindow);
    }
    assert |left.0| == HandWindow;
    if r.rightHand.Some? {
      SmoothEntryDense(left.0, r.rightHand, HandWindow);
    }
  }

  /** A successful frame publishes a count that does not depend on the
      confidence threshold. */
  lemma PublishedIgnoresThreshold(s: State, r: Results, show: Toggles, t: Topology, m1: real, m2: real, now: real)
    ensures OnResultsStep(s, r, show, t, m1, now).0 == OnResultsStep(s, r, show, t, m2, now).0
  {
    var smoothed := SmoothStage(s.histories, r, ShouldSmooth(s.source, s.model));
    RenderThresholdIndependent(smoothed.1, show, t, m1, m2);
  }

  /** The page state at load; startTime is the clock reading at load. */
  function Initial(startTime: real): State {
    State(false, 0.0, FpsCounter(0, startTime, 0), Histories([], [], []), None, Webcam, Full)
  }

  /** stopProcessing, as far as this state goes: processing stops, the
      buffers, the counter and the throttle are kept. */
  function StopStep(s: State): State {
    s.(active := false)
  }

  /** startTracking: ignored while active; otherwise processing starts on the
      webcam. */
  function StartStep(s: State): (r: State)
    ensures r.active
    ensures r.histories == s.histories && r.model == s.model && r.lastDrawTime == s.lastDrawTime
  {
    if s.active then s else s.(active := true, source := Webcam)
  }

  /** The kind of file the upload input holds when processUploadedFile runs. */
  datatype Upload = NoFile | ImageFile | VideoFile | OtherFile

  /** processUploadedFile up to its asynchronous callbacks: without a file
      nothing happens; otherwise processing stops and the source becomes the
      file's kind (left alone for an unsupported type). */
  function UploadStep(s: State, kind: Upload): (r: State)
    ensures kind != NoFile ==> !r.active
    ensures r.histories == s.histories && r.model == s.model
  {
    match kind
    case NoFile => s
    case ImageFile => StopStep(s).(source := Image)
    case VideoFile => StopStep(s).(source := Video)
    case OtherFile => StopStep(s)
  }

  /** The loaded-metadata callback of an uploaded video: processing resumes,
      whatever the source is by then. */
  function VideoReadyStep(s: State): State {
    s.(active := true)
  }

  /** The model selector: the model changes; when processing, it is stopped
      and restarted on the webcam, or the current upload is processed again. */
  function SelectModelStep(s: State, m: ModelName, kind: Upload): (r: State)
    ensures r.model == m
  {
    var s1 := s.(model := m);
    if !s1.active then s1
    else if s1.source == Webcam then StartStep(StopStep(s1))
    else UploadStep(StopStep(s1), kind)
  }

  /** startTracking twice is startTracking once. */
  lemma StartIdempotent(s: State)
    ensures StartStep(StartStep(s)) == StartStep(s)
  {
  }

  /** Right after an image upload nothing is processed: the detector result
      for the image arrives while processing is stopped. */
  lemma ImageUploadSkipped(s: State, r: Results, show: Toggles, t: Topology, minConf: real, now: real)
    ensures var s1 := UploadStep(s, ImageFile);
      s1.source == Image && OnResultsStep(s1, r, show, t, minConf, now) == (s1, Skipped)
  {
  }

  /** A video upload processes only once its metadata has loaded, and then
      smooths every category whatever the model. */
  lemma VideoUploadThenReady(s: State)
    ensures !UploadStep(s, VideoFile).active
    ensures var s1 := VideoReadyStep(UploadStep(s, VideoFile));
      s1.active && s1.source == Video && ShouldSmooth(s1.source, s1.model)
  {
  }

  /** Changing the model while tracking the webcam keeps tracking with the new
      model; while processing an upload it stops until the upload restarts. */
  lemma SelectModelWhileActive(s: State, m: ModelName, kind: Upload)
    requires s.active
    ensures s.source == Webcam ==> SelectModelStep(s, m, kind) == s.(model := m)
    ensures s.source != Webcam && kind != NoFile ==> !SelectModelStep(s, m, kind).active
  {
  }

  /** The first result after load and startTracking, once past the throttle:
      every buffer is below its window, so the raw sets are drawn unsmoothed
      and the frame throws exactly when a shown raw pose or hand set has an
      empty entry. */
  lemma FirstFrameAfterStart(startTime: real, r: Results, show: Toggles, t: Topology, minConf: real, now: real)
    requires now > ThrottleMs
    ensures var step := ThrottledStep(StartStep(Initial(startTime)), r, show, t, minConf, now);
      (step.1 == Threw <==> Throws(r, show)) &&
      (!Throws(r, show) ==> step.1 == Drawn(Render(r, show, t, minConf).value)) &&
      (step.1 == Threw ==> !step.0.active) && step.0.lastDrawTime == now
  {
    var s := StartStep(Initial(startTime));
    var smoothed := SmoothStage(s.histories, r, true);
    assert smoothed.1 == r;
  }

  /** The page's module-level state, with its three smoothers. */
  class Tracker {
    var active: bool
    var lastDrawTime: real
    var frameCount: nat
    var startTime: real
    var fps: nat
    /** The text of the point counter; None until a frame has been drawn. */
    var published: Option<nat>
    var sourceType: Source
    var currentModel: ModelName
    const poseSmoother: LandmarkSmoother
    const faceSmoother: LandmarkSmoother
    const handSmoother: LandmarkSmoother

    ghost predicate Valid()
      reads this, poseSmoother, faceSmoother, handSmoother
    {
      poseSmoother != faceSmoother && poseSmoother != handSmoother && faceSmoother != handSmoother &&
      poseSmoother.windowSize == PoseWindow && faceSmoother.windowSize == FaceWindow &&
      handSmoother.windowSize == HandWindow &&
      poseSmoother.Valid() && faceSmoother.Valid() && handSmoother.Valid()
    }

    ghost function Buffers(): Histories
      reads this, poseSmoother, faceSmoother, handSmoother
    {
      Histories(poseSmoother.history, faceSmoother.history, handSmoother.history)
    }

    ghost function Snapshot(): State
      reads this, poseSmoother, faceSmoother, handSmoother
    {
      State(active, lastDrawTime, FpsCounter(frameCount, startTime, fps), Buffers(), published,
            sourceType, currentModel)
    }

    /** Load time: inactive, webcam, full model, empty buffers; startTime is
        the clock reading at load. */
    constructor (startTime: real)
      ensures Valid() && fresh(poseSmoother) && fresh(faceSmoother) && fresh(handSmoother)
      ensures Snapshot() == Initial(startTime)
    {
      active := false;
      lastDrawTime := 0.0;
      frameCount := 0;
      this.startTime := startTime;
      fps := 0;
      published := None;
      sourceType := Webcam;
      currentModel := Full;
      poseSmoother := new LandmarkSmoother(PoseWindow);
      faceSmoother := new LandmarkSmoother(FaceWindow);
      handSmoother := new LandmarkSmoother(HandWindow);
    }

    /** stopProcessing, as far as this state goes: processing stops and the
        buffers are kept. */
    method Stop()
      modifies this
      ensures Snapshot() == StopStep(old(Snapshot()))
    {
      active := false;
    }

    method StartTracking()
      modifies this
      ensures Snapshot() == StartStep(old(Snapshot()))
    {
      if active {
        return;
      }
      active := true;
      sourceType := Webcam;
    }

    method ProcessUpload(kind: Upload)
      modifies this
      ensures Snapshot() == UploadStep(old(Snapshot()), kind)
    {
      if kind == NoFile {
        return;
      }
      Stop();
      if kind == ImageFile {
        sourceType := Image;
      } else if kind == VideoFile {
        sourceType := Video;
      }
    }

    method VideoReady()
      modifies this
      ensures Snapshot() == VideoReadyStep(old(Snapshot()))
    {
      active := true;
    }

    method SelectModel(m: ModelName, kind: Upload)
      modifies this
      ensures Snapshot() == SelectModelStep(old(Snapshot()), m, kind)
    {
      currentModel := m;
      if active {
        Stop();
        if sourceType == Webcam {
          StartTracking();
        } else {
          ProcessUpload(kind);
        }
      }
    }

    /** The frame counter at the start of onResults. */
    method RecordFrame(now: real)
      modifies this
      ensures Snapshot() == old(Snapshot()).(counter := CountFrame(old(Snapshot()).counter, now))
    {
      frameCount := frameCount + 1;
      if now - startTime >= FpsWindowMs {
        fps := frameCount;
        frameCount := 0;
        startTime := now;
      }
    }

    method SmoothWith(smoother: LandmarkSmoother, entry: Option<LandmarkSet>, on: bool) returns (r: Option<LandmarkSet>)
      requires smoother.Valid()
      modifies smoother
      ensures smoother.Valid()
      ensures (smoother.history, r) == SmoothEntry(old(smoother.history), entry, on, smoother.windowSize)
    {
      r := entry;
      if entry.Some? && on {
        var smoothed := smoother.Smooth(entry.value);
        r := Some(smoothed);
      }
    }

    method OnResults(results: Results, show: Toggles, t: Topology, minConf: real, now: real) returns (o: Outcome)
      requires Valid()
      modifies this, poseSmoother, faceSmoother, handSmoother
      ensures Valid()
      ensures (Snapshot(), o) == OnResultsStep(old(Snapshot()), results, show, t, minConf, now)
    {
      if !active {
        return Skipped;
      }
      RecordFrame(now);
      var on := sourceType != Image || Config(currentModel).smoothLandmarks;
      ghost var h := Buffers();
      var pose := SmoothWith(poseSmoother, results.pose, on);
      var face := SmoothWith(faceSmoother, results.face, on);
      var left := SmoothWith(handSmoother, results.leftHand, on);
      var right := SmoothWith(handSmoother, results.rightHand, on);
      ghost var stage := SmoothStage(h, results, on);
      assert Buffers() == stage.0;
      var frame := RenderFrame(Results(pose, face, left, right), show, t, minConf);
      if frame.None? {
        return Threw;
      }
      published := Some(frame.value.totalPoints);
      return Drawn(frame.value);
    }

    method ThrottledOnResults(results: Results, show: Toggles, t: Topology, minConf: real, now: real) returns (o: Outcome)
      requires Valid()
      modifies this, poseSmoother, faceSmoother, handSmoother
      ensures Valid()
      ensures (Snapshot(), o) == ThrottledStep(old(Snapshot()), results, show, t, minConf, now)
    {
      if now - lastDrawTime > ThrottleMs {
        o := OnResults(results, show, t, minConf, now);
        if o == Threw {
          Stop();
        }
        lastDrawTime := now;
      } else {
        o := Dropped;
      }
    }
  }

  /** The page from load to its first processed result: load, the start
      button, then one detector result past the throttle. */
  method FirstResult(startTime: real, r: Results, show: Toggles, t: Topology, minConf: real, now: real)
    returns (o: Outcome)
    requires now > ThrottleMs
    ensures o == ThrottledStep(StartStep(Initial(startTime)), r, show, t, minConf, now).1
    ensures o != Dropped && o != Skipped
    ensures o == Threw <==> Throws(r, show)
  {
    var tracker := new Tracker(startTime);
    tracker.StartTracking();
    o := tracker.ThrottledOnResults(r, show, t, minConf, now);
    FirstFrameAfterStart(startTime, r, show, t, minConf, now);
  }
}
