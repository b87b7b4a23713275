/** The landmark smoother: a bounded FIFO of recent landmark sets and the
    per-index mean over it. */
module Smoothing {
  import opened Landmarks

  /** Window sizes of the three smoothers the page creates. */
  const PoseWindow: nat := 5
  const FaceWindow: nat := 3
  const HandWindow: nat := 5

  /** The running totals kept for one index while walking the buffer. */
  datatype Sums = Sums(x: real, y: real, z: real, vis: real, count: nat)

  const NoSums: Sums := Sums(0.0, 0.0, 0.0, 0.0, 0)

  /** Adds one frame's entry; a missing entry contributes nothing. */
  function AddSample(acc: Sums, e: Option<Landmark>): Sums {
    match e
    case None => acc
    case Some(l) => Sums(acc.x + l.x, acc.y + l.y, acc.z + l.z, acc.vis + l.visibility, acc.count + 1)
  }

  /** The totals of the entries at idx over the buffered frames, oldest first. */
  function Accumulate(frames: seq<LandmarkSet>, idx: int): (r: Sums)
    ensures r.count <= |frames|
  {
    if frames == [] then NoSums
    else AddSample(Accumulate(frames[..|frames| - 1], idx), At(frames[|frames| - 1], idx))
  }

  /** The mean at idx over the frames that have an entry there; absent when none does. */
  function MeanAt(frames: seq<LandmarkSet>, idx: int): (r: Option<Landmark>)
    ensures r.Some? <==> exists k :: 0 <= k < |frames| && At(frames[k], idx).Some?
  {
    AccumulateCount(frames, idx);
    Mean(Accumulate(frames, idx))
  }

  /** Totals divided by their sample count; nothing without samples. */
  function Mean(a: Sums): (r: Option<Landmark>)
    ensures r.Some? <==> a.count > 0
    ensures r.Some? ==> var k := a.count as real;
      r.value.x * k == a.x && r.value.y * k == a.y && r.value.z * k == a.z && r.value.visibility * k == a.vis
  {
    if a.count > 0 then
      Some(Landmark(a.x / a.count as real, a.y / a.count as real, a.z / a.count as real, a.vis / a.count as real))
    else None
  }

  /** The smoothed list for indices 0 .. n-1: one mean per index that has at
      least one sample, in index order; indices without samples are dropped. */
  function Smoothed(frames: seq<LandmarkSet>, n: nat): (r: seq<Landmark>)
    ensures |r| <= n
  {
    if n == 0 then []
    else Smoothed(frames, n - 1) + (match MeanAt(frames, n - 1) case Some(m) => [m] case None => [])
  }

  /** The buffer after a push: the new frame is appended and, once the buffer
      is longer than the window, the oldest frame is shifted out. */
  function Slide(history: seq<LandmarkSet>, frame: LandmarkSet, windowSize: nat): (r: seq<LandmarkSet>)
    ensures |history| <= windowSize ==> |r| <= windowSize
    ensures |history| < windowSize ==> r == history + [frame]
    ensures windowSize > 0 ==> |r| > 0 && r[|r| - 1] == frame
  {
    var h := history + [frame];
    if |h| > windowSize then h[1..] else h
  }

  /** What smooth returns given the buffer after the push. */
  function SmoothOutput(history: seq<LandmarkSet>, frame: LandmarkSet, windowSize: nat): (r: LandmarkSet)
    ensures |history| < windowSize ==> r == frame
    ensures |history| >= windowSize ==> AllPresent(r) && |r| <= |frame|
  {
    if |history| < windowSize then frame else Lift(Smoothed(history, |frame|))
  }

  /** The newest windowSize frames of a stream (all of it while shorter). */
  function Window(stream: seq<LandmarkSet>, windowSize: nat): (r: seq<LandmarkSet>)
    ensures |r| <= windowSize && |r| <= |stream|
  {
    if |stream| <= windowSize then stream else stream[|stream| - windowSize..]
  }

  /** A buffer that holds the newest frames of the stream so far still does
      after the next push: the smoother keeps exactly the last windowSize frames. */
  lemma SlideKeepsWindow(stream: seq<LandmarkSet>, frame: LandmarkSet, windowSize: nat)
    ensures Slide(Window(stream, windowSize), frame, windowSize) == Window(stream + [frame], windowSize)
  {
    var s := stream + [frame];
    if |stream| < windowSize {
    } else if |stream| == windowSize {
      if windowSize > 0 {
        assert s[|s| - windowSize..] == stream[1..] + [frame];
      }
    } else {
      var w := stream[|stream| - windowSize..];
      assert (w + [frame])[1..] == s[|s| - windowSize..];
    }
  }

  /** Pushing a stream into an empty buffer leaves its newest frames. */
  function Feed(history: seq<LandmarkSet>, stream: seq<LandmarkSet>, windowSize: nat): seq<LandmarkSet> {
    if stream == [] then history
    else Slide(Feed(history, stream[..|stream| - 1], windowSize), stream[|stream| - 1], windowSize)
  }

  lemma {:induction false} FeedIsWindow(stream: seq<LandmarkSet>, windowSize: nat)
    ensures Feed([], stream, windowSize) == Window(stream, windowSize)
  {
    if stream != [] {
      var prefix := stream[..|stream| - 1];
      FeedIsWindow(prefix, windowSize);
      SlideKeepsWindow(prefix, stream[|stream| - 1], windowSize);
      assert prefix + [stream[|stream| - 1]] == stream;
    }
  }

  /** The frames of the buffer that have an entry at idx, oldest first. */
  function FramesWith(frames: seq<LandmarkSet>, idx: int): (r: seq<LandmarkSet>)
    ensures |r| <= |frames|
    ensures forall f :: f in r ==> f in frames && At(f, idx).Some?
  {
    if frames == [] then []
    else
      var last := frames[|frames| - 1];
      FramesWith(frames[..|frames| - 1], idx) + (if At(last, idx).Some? then [last] else [])
  }

  /** Index compaction of the mean: the totals at idx are those of the frames
      that have an entry there, and the divisor is their number, not the
      window size. */
  lemma {:induction false} AccumulateOnlySampled(frames: seq<LandmarkSet>, idx: int)
    ensures Accumulate(frames, idx) == Accumulate(FramesWith(frames, idx), idx)
    ensures Accumulate(frames, idx).count == |FramesWith(frames, idx)|
  {
    if frames != [] {
      var prefix, last := frames[..|frames| - 1], frames[|frames| - 1];
      AccumulateOnlySampled(prefix, idx);
      var w := FramesWith(prefix, idx);
      if At(last, idx).Some? {
        assert FramesWith(frames, idx) == w + [last];
        assert (w + [last])[..|w|] == w;
      } else {
        assert FramesWith(frames, idx) == w;
      }
    }
  }

  /** The number of samples at idx is the number of frames having an entry there. */
  lemma {:induction false} AccumulateCount(frames: seq<LandmarkSet>, idx: int)
    ensures (exists k :: 0 <= k < |frames| && At(frames[k], idx).Some?) <==> Accumulate(frames, idx).count > 0
  {
    if frames != [] {
      var prefix := frames[..|frames| - 1];
      AccumulateCount(prefix, idx);
      if exists k :: 0 <= k < |prefix| && At(prefix[k], idx).Some? {
        var k :| 0 <= k < |prefix| && At(prefix[k], idx).Some?;
        assert frames[k] == prefix[k];
      }
      if exists k :: 0 <= k < |frames| && At(frames[k], idx).Some? {
        var k :| 0 <= k < |frames| && At(frames[k], idx).Some?;
        if k < |prefix| { assert prefix[k] == frames[k]; }
      }
    }
  }

  /** Totals over k copies of one frame. */
  lemma {:induction false} AccumulateConstant(frames: seq<LandmarkSet>, f: LandmarkSet, idx: int)
    requires forall i :: 0 <= i < |frames| ==> frames[i] == f
    ensures var a := Accumulate(frames, idx); var k := |frames| as real;
      match At(f, idx)
      case None => a == NoSums
      case Some(l) => a == Sums(k * l.x, k * l.y, k * l.z, k * l.visibility, |frames|)
  {
    if frames != [] {
      var prefix := frames[..|frames| - 1];
      AccumulateConstant(prefix, f, idx);
      var k := |prefix| as real;
      if At(f, idx).Some? {
        var l := At(f, idx).value;
        assert k * l.x + l.x == (k + 1.0) * l.x;
        assert k * l.y + l.y == (k + 1.0) * l.y;
        assert k * l.z + l.z == (k + 1.0) * l.z;
        assert k * l.visibility + l.visibility == (k + 1.0) * l.visibility;
      }
    }
  }

  lemma MeanOfCopies(k: real, v: real)
    requires k > 0.0
    ensures (k * v) / k == v
  {
  }

  /** Dividing the totals of k copies of l by k gives l back. */
  lemma MeanOfSums(a: Sums, l: Landmark)
    requires a.count > 0
    requires var k := a.count as real; a == Sums(k * l.x, k * l.y, k * l.z, k * l.visibility, a.count)
    ensures Mean(a) == Some(l)
  {
    var k := a.count as real;
    MeanOfCopies(k, l.x);
    MeanOfCopies(k, l.y);
    MeanOfCopies(k, l.z);
    MeanOfCopies(k, l.visibility);
    assert a.x / k == l.x && a.y / k == l.y && a.z / k == l.z && a.vis / k == l.visibility;
    assert Mean(a) == Some(Landmark(a.x / k, a.y / k, a.z / k, a.vis / k));
  }

  /** The mean of identical entries is the entry itself. */
  lemma MeanAtConstant(frames: seq<LandmarkSet>, f: LandmarkSet, idx: int)
    requires |frames| > 0
    requires forall i :: 0 <= i < |frames| ==> frames[i] == f
    ensures MeanAt(frames, idx) == At(f, idx)
  {
    AccumulateConstant(frames, f, idx);
    var a := Accumulate(frames, idx);
    match At(f, idx)
    case None =>
      assert a == NoSums;
    case Some(l) =>
      MeanOfSums(a, l);
  }

  /** Smoothing a buffer of identical frames yields that frame's landmarks. */
  lemma {:induction false} SmoothedConstant(frames: seq<LandmarkSet>, f: LandmarkSet, n: nat)
    requires |frames| > 0 && n <= |f|
    requires forall i :: 0 <= i < |frames| ==> frames[i] == f
    ensures Smoothed(frames, n) == Compact(f[..n])
  {
    if n > 0 {
      SmoothedConstant(frames, f, n - 1);
      MeanAtConstant(frames, f, n - 1);
      SmoothedCompactStep(frames, f, n);
    } else {
      assert f[..0] == [];
    }
  }

  lemma SmoothedCompactStep(frames: seq<LandmarkSet>, f: LandmarkSet, n: nat)
    requires 0 < n <= |f|
    requires Smoothed(frames, n - 1) == Compact(f[..n - 1]) && MeanAt(frames, n - 1) == At(f, n - 1)
    ensures Smoothed(frames, n) == Compact(f[..n])
  {
    TakeStep(f, n);
    var e := f[n - 1];
    var tail := if e.Some? then [e.value] else [];
    assert Compact(f[..n]) == Compact(f[..n - 1]) + tail;
    assert Smoothed(frames, n) == Smoothed(frames, n - 1) + tail;
  }

  /** Feeding the window with copies of one complete frame returns that frame. */
  lemma SmoothIdenticalWindow(frames: seq<LandmarkSet>, f: LandmarkSet, windowSize: nat)
    requires |frames| == windowSize && windowSize > 0 && AllPresent(f)
    requires forall i :: 0 <= i < |frames| ==> frames[i] == f
    ensures SmoothOutput(frames, f, windowSize) == f
  {
    SmoothedConstant(frames, f, |f|);
    assert f[..|f|] == f;
    CompactDense(f);
    assert Lift(Compact(f)) == f;
  }

  /** When the newest frame is complete no index is dropped and the output
      stays aligned with the input: entry i is the mean at index i. */
  lemma {:induction false} SmoothedAligned(frames: seq<LandmarkSet>, n: nat)
    requires |frames| > 0 && AllPresent(frames[|frames| - 1]) && n <= |frames[|frames| - 1]|
    ensures |Smoothed(frames, n)| == n
    ensures forall i :: 0 <= i < n ==> MeanAt(frames, i).Some? && Smoothed(frames, n)[i] == MeanAt(frames, i).value
  {
    if n > 0 {
      SmoothedAligned(frames, n - 1);
      var last := frames[|frames| - 1];
      assert At(last, n - 1).Some?;
      assert Accumulate(frames, n - 1).count > 0;
    }
  }

  /** Every confidence present in the buffered frames lies in [lo, hi]. */
  ghost predicate VisibilityWithin(frames: seq<LandmarkSet>, lo: real, hi: real) {
    forall k, idx :: 0 <= k < |frames| && At(frames[k], idx).Some? ==>
      lo <= At(frames[k], idx).value.visibility <= hi
  }

  lemma WithinPrefix(frames: seq<LandmarkSet>, lo: real, hi: real)
    requires frames != [] && VisibilityWithin(frames, lo, hi)
    ensures VisibilityWithin(frames[..|frames| - 1], lo, hi)
  {
    var prefix := frames[..|frames| - 1];
    forall k, idx | 0 <= k < |prefix| && At(prefix[k], idx).Some?
      ensures lo <= At(prefix[k], idx).value.visibility <= hi
    {
      assert prefix[k] == frames[k];
    }
  }

  /** Running totals whose confidence sum lies between count * lo and count * hi. */
  predicate SumsWithin(a: Sums, lo: real, hi: real) {
    a.count as real * lo <= a.vis <= a.count as real * hi
  }

  /** Adding a sample in [lo, hi], or no sample, keeps the totals in range. */
  lemma AddSampleWithin(a: Sums, e: Option<Landmark>, lo: real, hi: real)
    requires SumsWithin(a, lo, hi)
    requires e.Some? ==> lo <= e.value.visibility <= hi
    ensures SumsWithin(AddSample(a, e), lo, hi)
  {
    if e.Some? {
      var c := a.count as real;
      assert (c + 1.0) * lo == c * lo + lo;
      assert (c + 1.0) * hi == c * hi + hi;
    }
  }

  /** Totals of samples that all lie in [lo, hi]. */
  lemma {:induction false} AccumulateWithin(frames: seq<LandmarkSet>, idx: int, lo: real, hi: real)
    requires VisibilityWithin(frames, lo, hi)
    ensures SumsWithin(Accumulate(frames, idx), lo, hi)
  {
    if frames != [] {
      var prefix := frames[..|frames| - 1];
      WithinPrefix(frames, lo, hi);
      AccumulateWithin(prefix, idx, lo, hi);
      var e := At(frames[|frames| - 1], idx);
      AddSampleWithin(Accumulate(prefix, idx), e, lo, hi);
    }
  }

  /** The mean of totals in range lies in [lo, hi]. */
  lemma MeanWithin(a: Sums, lo: real, hi: real)
    requires SumsWithin(a, lo, hi)
    ensures Mean(a).Some? ==> lo <= Mean(a).value.visibility <= hi
  {
    if a.count > 0 {
      var c := a.count as real;
      assert a.vis / c - lo == (a.vis - c * lo) / c;
      assert hi - a.vis / c == (c * hi - a.vis) / c;
    }
  }

  /** Averaging keeps confidences inside any range all samples respect. */
  lemma {:induction false} SmoothedWithin(frames: seq<LandmarkSet>, n: nat, lo: real, hi: real)
    requires VisibilityWithin(frames, lo, hi)
    ensures forall l :: l in Smoothed(frames, n) ==> lo <= l.visibility <= hi
  {
    if n > 0 {
      SmoothedWithin(frames, n - 1, lo, hi);
      AccumulateWithin(frames, n - 1, lo, hi);
      var m := MeanAt(frames, n - 1);
      MeanWithin(Accumulate(frames, n - 1), lo, hi);
      var tail := match m case Some(v) => [v] case None => [];
      assert forall l :: l in tail ==> lo <= l.visibility <= hi;
      assert Smoothed(frames, n) == Smoothed(frames, n - 1) + tail;
    }
  }

  /** The warm smoothing pass: for each index of the newest frame, total the
      buffered entries present there and keep their mean if there was one. */
  method MeanOverWindow(frames: seq<LandmarkSet>, n: nat) returns (r: seq<Landmark>)
    ensures r == Smoothed(frames, n)
  {
    r := [];
    for idx := 0 to n
      invariant r == Smoothed(frames, idx)
    {
      var sumX, sumY, sumZ, sumVis, count := 0.0, 0.0, 0.0, 0.0, 0;
      for j := 0 to |frames|
        invariant Sums(sumX, sumY, sumZ, sumVis, count) == Accumulate(frames[..j], idx)
      {
        assert frames[..j + 1][..j] == frames[..j];
        var e := At(frames[j], idx);
        if e.Some? {
          sumX := sumX + e.value.x;
          sumY := sumY + e.value.y;
          sumZ := sumZ + e.value.z;
          sumVis := sumVis + e.value.visibility;
          count := count + 1;
        }
      }
      assert frames[..|frames|] == frames;
      if count > 0 {
        r := r + [Landmark(sumX / count as real, sumY / count as real, sumZ / count as real, sumVis / count as real)];
      }
    }
  }

  /** LandmarkSmoother: the buffer of recent frames and its window size. */
  class LandmarkSmoother {
    const windowSize: nat
    var history: seq<LandmarkSet>

    ghost predicate Valid()
      reads this
    {
      |history| <= windowSize
    }

    constructor (windowSize: nat)
      ensures Valid() && this.windowSize == windowSize && history == []
    {
      this.windowSize := windowSize;
      history := [];
    }

    /** smooth: push the frame, evict the oldest beyond the window, pass the
        frame through while warming up, otherwise return the per-index means. */
    method Smooth(landmarks: LandmarkSet) returns (r: LandmarkSet)
      requires Valid()
      modifies this
      ensures Valid()
      ensures history == Slide(old(history), landmarks, windowSize)
      ensures r == SmoothOutput(history, landmarks, windowSize)
      ensures |history| < windowSize ==> r == landmarks
      ensures |history| >= windowSize ==> AllPresent(r) && |r| <= |landmarks|
    {
      history := history + [landmarks];
      if |history| > windowSize {
        history := history[1..];
      }
      if |history| < windowSize {
        return landmarks;
      }
      var smoothed := MeanOverWindow(history, |landmarks|);
      r := Lift(smoothed);
    }
  }
}
