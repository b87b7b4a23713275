/** Landmarks, landmark sets and the geometry utilities of the overlay pipeline:
    linear interpolation between two points, the confidence filter and the
    confidence colour tiers. */
module Landmarks {

  datatype Option<T> = None | Some(value: T)

  /** One tracked point: normalised image coordinates, relative depth and a
      confidence score. Coordinates are exact reals, not IEEE doubles. */
  datatype Landmark = Landmark(x: real, y: real, z: real, visibility: real)

  /** An index-addressed list of landmarks as the detector, the smoother or a
      caller hands it over; None stands for a falsy (null or undefined) entry. */
  type LandmarkSet = seq<Option<Landmark>>

  /** Dropping the last element of a concatenation with a non-empty tail. */
  lemma DropLastConcat<T>(a: seq<T>, b: seq<T>)
    requires b != []
    ensures (a + b)[..|a + b| - 1] == a + b[..|b| - 1]
    ensures (a + b)[|a + b| - 1] == b[|b| - 1]
  {
  }

  lemma ConcatAssoc<T>(a: seq<T>, b: seq<T>, c: seq<T>)
    ensures a + b + c == a + (b + c)
  {
  }

  /** The first n elements are the first n - 1 followed by element n - 1. */
  lemma TakeStep<T>(s: seq<T>, n: int)
    requires 0 < n <= |s|
    ensures s[..n][..n - 1] == s[..n - 1] && s[..n][n - 1] == s[n - 1] && |s[..n]| == n
  {
  }

  /** An anatomically adjacent pair of indices into a LandmarkSet. */
  type Connection = (int, int)

  /** The entry at an index; an index past either end reads as absent. */
  function At(s: LandmarkSet, idx: int): Option<Landmark> {
    if 0 <= idx < |s| then s[idx] else None
  }

  /** Both endpoints of a connection are present in the set. */
  predicate Present(s: LandmarkSet, c: Connection) {
    At(s, c.0).Some? && At(s, c.1).Some?
  }

  /** Every entry of the set is a landmark (no null entries). */
  predicate AllPresent(s: LandmarkSet) {
    forall i :: 0 <= i < |s| ==> s[i].Some?
  }

  /** The landmarks of a set in order, null entries dropped. */
  function Compact(s: LandmarkSet): (r: seq<Landmark>)
    ensures |r| <= |s|
  {
    if s == [] then []
    else
      var last := s[|s| - 1];
      Compact(s[..|s| - 1]) + (if last.Some? then [last.value] else [])
  }

  /** A set without null entries compacts to its landmarks, index for index. */
  lemma {:induction false} CompactDense(s: LandmarkSet)
    requires AllPresent(s)
    ensures |Compact(s)| == |s|
    ensures forall i :: 0 <= i < |s| ==> Compact(s)[i] == s[i].value
  {
    if s != [] {
      var prefix := s[..|s| - 1];
      assert forall i :: 0 <= i < |prefix| ==> prefix[i] == s[i];
      CompactDense(prefix);
    }
  }

  /** Compaction only keeps landmarks of the set. */
  lemma {:induction false} CompactMembers(s: LandmarkSet)
    ensures forall l :: l in Compact(s) ==> Some(l) in s
  {
    if s != [] {
      var prefix := s[..|s| - 1];
      CompactMembers(prefix);
      assert forall e :: e in prefix ==> e in s;
    }
  }

  /** The landmarks of a dense list as a LandmarkSet. */
  function Lift(lms: seq<Landmark>): (r: LandmarkSet)
    ensures |r| == |lms| && AllPresent(r)
    ensures forall i :: 0 <= i < |lms| ==> r[i] == Some(lms[i])
  {
    seq(|lms|, i requires 0 <= i < |lms| => Some(lms[i]))
  }

  function Min(a: real, b: real): real {
    if a <= b then a else b
  }

  function Max(a: real, b: real): real {
    if a <= b then b else a
  }

  /** interpolateBetweenPoints: the point at `factor` along the segment from
      start to end (no clamping). Its confidence is that of the weaker endpoint. */
  function Interpolate(start: Landmark, end: Landmark, factor: real): (r: Landmark)
    ensures r.visibility <= start.visibility && r.visibility <= end.visibility
    ensures r.visibility == start.visibility || r.visibility == end.visibility
  {
    Landmark(start.x + (end.x - start.x) * factor,
             start.y + (end.y - start.y) * factor,
             start.z + (end.z - start.z) * factor,
             Min(start.visibility, end.visibility))
  }

  /** Factor 0 lands on the start point. */
  lemma InterpolateAtStart(a: Landmark, b: Landmark)
    ensures var r := Interpolate(a, b, 0.0); r.x == a.x && r.y == a.y && r.z == a.z
  {
  }

  /** Factor 1 lands on the end point. */
  lemma InterpolateAtEnd(a: Landmark, b: Landmark)
    ensures var r := Interpolate(a, b, 1.0); r.x == b.x && r.y == b.y && r.z == b.z
  {
  }

  /** A degenerate edge yields its own endpoint for every factor. */
  lemma InterpolateDegenerate(a: Landmark, f: real)
    ensures Interpolate(a, a, f) == a
  {
  }

  /** Walking the edge backwards gives the same point. */
  lemma InterpolateReversed(a: Landmark, b: Landmark, f: real)
    ensures Interpolate(a, b, f) == Interpolate(b, a, 1.0 - f)
  {
    var r, q := Interpolate(a, b, f), Interpolate(b, a, 1.0 - f);
    assert (a.x - b.x) * (1.0 - f) == (a.x - b.x) - (a.x - b.x) * f;
    assert (a.y - b.y) * (1.0 - f) == (a.y - b.y) - (a.y - b.y) * f;
    assert (a.z - b.z) * (1.0 - f) == (a.z - b.z) - (a.z - b.z) * f;
  }

  lemma ScaleBounds(d: real, f: real)
    requires d >= 0.0 && 0.0 <= f <= 1.0
    ensures 0.0 <= d * f <= d
  {
    assert d * (1.0 - f) >= 0.0;
  }

  lemma ScaledBetween(u: real, v: real, f: real)
    requires 0.0 <= f <= 1.0
    ensures Min(u, v) <= u + (v - u) * f <= Max(u, v)
  {
    if u <= v {
      ScaleBounds(v - u, f);
      var d := (v - u) * f;
      assert 0.0 <= d <= v - u;
      assert u + d <= v;
    } else {
      ScaleBounds(u - v, f);
      assert (v - u) * f == -((u - v) * f);
      assert Min(u, v) == v && Max(u, v) == u;
    }
  }

  /** A factor in [0, 1] stays within the bounding box of the edge. */
  lemma InterpolateWithinEdge(a: Landmark, b: Landmark, f: real)
    requires 0.0 <= f <= 1.0
    ensures var r := Interpolate(a, b, f);
      Min(a.x, b.x) <= r.x <= Max(a.x, b.x) &&
      Min(a.y, b.y) <= r.y <= Max(a.y, b.y) &&
      Min(a.z, b.z) <= r.z <= Max(a.z, b.z)
  {
    ScaledBetween(a.x, b.x, f);
    ScaledBetween(a.y, b.y, f);
    ScaledBetween(a.z, b.z, f);
  }

  /** filterByConfidence: the landmarks whose confidence is strictly above
      minConf, in their original order. */
  function FilterByConfidence(lms: seq<Landmark>, minConf: real): (r: seq<Landmark>)
    ensures |r| <= |lms|
    ensures forall l :: l in r ==> l in lms && l.visibility > minConf
    ensures forall l :: l in lms && l.visibility > minConf ==> l in r
  {
    if lms == [] then []
    else (if lms[0].visibility > minConf then [lms[0]] else []) + FilterByConfidence(lms[1..], minConf)
  }

  /** The filter works element by element: filtering a concatenation is
      concatenating the filtered parts, so the original order is kept. */
  lemma {:induction false} FilterAppend(a: seq<Landmark>, b: seq<Landmark>, minConf: real)
    ensures FilterByConfidence(a + b, minConf) == FilterByConfidence(a, minConf) + FilterByConfidence(b, minConf)
  {
    if a != [] {
      assert (a + b)[1..] == a[1..] + b;
      FilterAppend(a[1..], b, minConf);
    } else {
      assert a + b == b;
    }
  }

  /** When every confidence is above the threshold nothing is dropped. */
  lemma {:induction false} FilterKeepsAll(lms: seq<Landmark>, minConf: real)
    requires forall i :: 0 <= i < |lms| ==> lms[i].visibility > minConf
    ensures FilterByConfidence(lms, minConf) == lms
  {
    if lms != [] {
      FilterKeepsAll(lms[1..], minConf);
    }
  }

  /** When no confidence is above the threshold everything is dropped. */
  lemma {:induction false} FilterDropsAll(lms: seq<Landmark>, minConf: real)
    requires forall i :: 0 <= i < |lms| ==> lms[i].visibility <= minConf
    ensures FilterByConfidence(lms, minConf) == []
  {
    if lms != [] {
      FilterDropsAll(lms[1..], minConf);
    }
  }

  const Green: string := "#00FF00"
  const Yellow: string := "#FFFF00"
  const Red: string := "#FF0000"

  /** getColorByConfidence: three tiers split at 0.8 and 0.5 (both exclusive). */
  function ColourFor(visibility: real): (c: string)
    ensures c == Green <==> visibility > 0.8
    ensures c == Yellow <==> 0.5 < visibility <= 0.8
    ensures c == Red <==> visibility <= 0.5
  {
    if visibility > 0.8 then Green
    else if visibility > 0.5 then Yellow
    else Red
  }

  /** A more confident point never falls into a lower tier. */
  lemma ColourMonotone(v: real, w: real)
    requires v <= w
    ensures ColourFor(v) == Green ==> ColourFor(w) == Green
    ensures ColourFor(w) == Red ==> ColourFor(v) == Red
  {
  }
}
