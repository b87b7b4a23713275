/** The derived-point generators: edge densification for pose, face and hands,
    and the virtual pose joints. Each output is a function of which indices
    of the input set are present. */
module Derived {
  import opened Landmarks

  /** The topology constants of the detector library, as index pairs. */
  datatype Topology = Topology(
    pose: seq<Connection>,
    tesselation: seq<Connection>,
    faceOval: seq<Connection>,
    lips: seq<Connection>,
    leftEye: seq<Connection>,
    rightEye: seq<Connection>,
    leftEyebrow: seq<Connection>,
    rightEyebrow: seq<Connection>,
    hand: seq<Connection>)

  /** Default factors of interpolateLandmarks. */
  const DefaultFactors: seq<real> := [0.2, 0.4, 0.6, 0.8]
  /** Factors of the face-contour and hand-joint densification. */
  const NineFactors: seq<real> := [0.1, 0.2, 0.3, 0.4, 0.5, 0.6, 0.7, 0.8, 0.9]
  const Half: seq<real> := [0.5]
  /** Factors of the forearm and shin points, in the order they are pushed. */
  const ForearmFactors: seq<real> := [0.5, 0.25, 0.75]
  /** Factors of the two spine points between the nose and "midHip". */
  const SpineFactors: seq<real> := [0.33, 0.66]
  /** Indices of the wrist and the four finger bases of a hand. */
  const FingerBases: seq<int> := [0, 5, 9, 13, 17]

  /** Every present entry of the set has confidence at most c. */
  predicate AllAtMost(s: LandmarkSet, c: real) {
    forall idx :: 0 <= idx < |s| && s[idx].Some? ==> s[idx].value.visibility <= c
  }

  /** The points interpolated along one edge, one per factor, in factor order. */
  function EdgePoints(a: Landmark, b: Landmark, factors: seq<real>): (r: seq<Landmark>)
    ensures |r| == |factors|
  {
    if factors == [] then []
    else EdgePoints(a, b, factors[..|factors| - 1]) + [Interpolate(a, b, factors[|factors| - 1])]
  }

  /** The j-th edge point is the interpolation at the j-th factor. */
  lemma {:induction false} EdgePointsAt(a: Landmark, b: Landmark, factors: seq<real>, j: int)
    requires 0 <= j < |factors|
    ensures EdgePoints(a, b, factors)[j] == Interpolate(a, b, factors[j])
  {
    if j < |factors| - 1 {
      EdgePointsAt(a, b, factors[..|factors| - 1], j);
    }
  }

  /** Edge points carry the confidence of the weaker endpoint. */
  lemma {:induction false} EdgePointsAtMost(a: Landmark, b: Landmark, factors: seq<real>, c: real)
    requires a.visibility <= c || b.visibility <= c
    ensures forall l :: l in EdgePoints(a, b, factors) ==> l.visibility <= c
  {
    if factors != [] {
      EdgePointsAtMost(a, b, factors[..|factors| - 1], c);
    }
  }

  /** The points of the edge i-j if both endpoints are present, else none. */
  function Span(s: LandmarkSet, i: int, j: int, factors: seq<real>): (r: seq<Landmark>)
    ensures |r| == if Present(s, (i, j)) then |factors| else 0
  {
    if Present(s, (i, j)) then EdgePoints(At(s, i).value, At(s, j).value, factors) else []
  }

  /** Densification of a list of connections: the edge points of each
      connection whose endpoints are both present, connection by connection. */
  function Densify(s: LandmarkSet, conns: seq<Connection>, factors: seq<real>): seq<Landmark> {
    if conns == [] then []
    else
      var c := conns[|conns| - 1];
      Densify(s, conns[..|conns| - 1], factors) + Span(s, c.0, c.1, factors)
  }

  /** The number of connections whose endpoints are both present. */
  function PresentCount(s: LandmarkSet, conns: seq<Connection>): (n: nat)
    ensures n <= |conns|
  {
    if conns == [] then 0
    else PresentCount(s, conns[..|conns| - 1]) + (if Present(s, conns[|conns| - 1]) then 1 else 0)
  }

  lemma MulSucc(a: nat, n: nat)
    ensures a * (n + 1) == a * n + a
  {
  }

  /** |factors| points per present connection, none for the others. */
  lemma {:induction false} DensifyLength(s: LandmarkSet, conns: seq<Connection>, factors: seq<real>)
    ensures |Densify(s, conns, factors)| == |factors| * PresentCount(s, conns)
  {
    if conns != [] {
      DensifyLength(s, conns[..|conns| - 1], factors);
      var n := PresentCount(s, conns[..|conns| - 1]);
      MulSucc(|factors|, n);
    }
  }

  /** Densification works connection by connection. */
  lemma DensifyAppend(s: LandmarkSet, c1: seq<Connection>, c2: seq<Connection>, factors: seq<real>)
    ensures Densify(s, c1 + c2, factors) == Densify(s, c1, factors) + Densify(s, c2, factors)
    ensures PresentCount(s, c1 + c2) == PresentCount(s, c1) + PresentCount(s, c2)
  {
    DensifyConcat(s, c1, c2, factors);
    PresentCountConcat(s, c1, c2);
  }

  lemma {:induction false} DensifyConcat(s: LandmarkSet, c1: seq<Connection>, c2: seq<Connection>, factors: seq<real>)
    ensures Densify(s, c1 + c2, factors) == Densify(s, c1, factors) + Densify(s, c2, factors)
  {
    if c2 == [] {
      assert c1 + c2 == c1;
    } else {
      var c2p, c := c2[..|c2| - 1], c2[|c2| - 1];
      DensifyConcat(s, c1, c2p, factors);
      DropLastConcat(c1, c2);
      var span := Span(s, c.0, c.1, factors);
      ConcatAssoc(Densify(s, c1, factors), Densify(s, c2p, factors), span);
    }
  }

  lemma {:induction false} PresentCountConcat(s: LandmarkSet, c1: seq<Connection>, c2: seq<Connection>)
    ensures PresentCount(s, c1 + c2) == PresentCount(s, c1) + PresentCount(s, c2)
  {
    if c2 == [] {
      assert c1 + c2 == c1;
    } else {
      PresentCountConcat(s, c1, c2[..|c2| - 1]);
      DropLastConcat(c1, c2);
    }
  }

  lemma DensifySingle(s: LandmarkSet, c: Connection, factors: seq<real>)
    ensures Densify(s, [c], factors) == Span(s, c.0, c.1, factors)
    ensures PresentCount(s, [c]) == if Present(s, c) then 1 else 0
  {
    assert [c][..0] == [];
  }

  /** Splitting the connection list around its i-th entry. */
  lemma DensifySplit(s: LandmarkSet, conns: seq<Connection>, factors: seq<real>, i: int)
    requires 0 <= i < |conns|
    ensures Densify(s, conns, factors) ==
      Densify(s, conns[..i], factors) + Span(s, conns[i].0, conns[i].1, factors) + Densify(s, conns[i + 1..], factors)
  {
    var before, here, after := conns[..i], [conns[i]], conns[i + 1..];
    assert conns == before + here + after;
    DensifyAppend(s, before + here, after, factors);
    DensifyAppend(s, before, here, factors);
    DensifySingle(s, conns[i], factors);
  }

  lemma IndexMiddle(d1: seq<Landmark>, d2: seq<Landmark>, d3: seq<Landmark>, j: int)
    requires 0 <= j < |d2|
    ensures |d1| + j < |d1 + d2 + d3| && (d1 + d2 + d3)[|d1| + j] == d2[j]
  {
  }

  /** The point at factor f along a present connection. */
  function PointOn(s: LandmarkSet, c: Connection, f: real): Landmark
    requires Present(s, c)
  {
    Interpolate(At(s, c.0).value, At(s, c.1).value, f)
  }

  /** The output order: the j-th point of the i-th connection sits right after
      the points of the connections before it (DensifyLength counts those). */
  lemma {:induction false} DensifyAt(s: LandmarkSet, conns: seq<Connection>, factors: seq<real>, i: int, j: int)
    requires 0 <= i < |conns| && Present(s, conns[i]) && 0 <= j < |factors|
    ensures |Densify(s, conns[..i], factors)| + j < |Densify(s, conns, factors)|
    ensures Densify(s, conns, factors)[|Densify(s, conns[..i], factors)| + j] == PointOn(s, conns[i], factors[j])
  {
    DensifySplit(s, conns, factors, i);
    var a, b := At(s, conns[i].0).value, At(s, conns[i].1).value;
    var d1, d2, d3 := Densify(s, conns[..i], factors), EdgePoints(a, b, factors), Densify(s, conns[i + 1..], factors);
    IndexMiddle(d1, d2, d3, j);
    EdgePointsAt(a, b, factors, j);
  }

  /** Every densified point lies on a present connection at one of the factors. */
  lemma {:induction false} DensifyOnlyPresent(s: LandmarkSet, conns: seq<Connection>, factors: seq<real>, k: int)
    requires 0 <= k < |Densify(s, conns, factors)|
    ensures exists i, j :: 0 <= i < |conns| && 0 <= j < |factors| && Present(s, conns[i]) &&
                   Densify(s, conns, factors)[k] == Interpolate(At(s, conns[i].0).value, At(s, conns[i].1).value, factors[j])
  {
    var prefix, c := conns[..|conns| - 1], conns[|conns| - 1];
    var d := Densify(s, prefix, factors);
    if k < |d| {
      DensifyOnlyPresent(s, prefix, factors, k);
      var i, j :| 0 <= i < |prefix| && 0 <= j < |factors| && Present(s, prefix[i]) &&
        d[k] == Interpolate(At(s, prefix[i].0).value, At(s, prefix[i].1).value, factors[j]);
      assert conns[i] == prefix[i];
    } else {
      var j := k - |d|;
      assert Densify(s, conns, factors)[k] == Span(s, c.0, c.1, factors)[j];
      EdgePointsAt(At(s, c.0).value, At(s, c.1).value, factors, j);
      assert 0 <= |conns| - 1 < |conns| && Present(s, conns[|conns| - 1]);
    }
  }

  /** Densified points are never more confident than the input. */
  lemma {:induction false} DensifyAtMost(s: LandmarkSet, conns: seq<Connection>, factors: seq<real>, c: real)
    requires AllAtMost(s, c)
    ensures forall l :: l in Densify(s, conns, factors) ==> l.visibility <= c
  {
    if conns != [] {
      DensifyAtMost(s, conns[..|conns| - 1], factors, c);
      var last := conns[|conns| - 1];
      if Present(s, last) {
        EdgePointsAtMost(At(s, last.0).value, At(s, last.1).value, factors, c);
      }
    }
  }

  /** interpolateLandmarks' innermost loop: push one point per factor. */
  method AppendEdgePoints(acc: seq<Landmark>, a: Landmark, b: Landmark, factors: seq<real>) returns (r: seq<Landmark>)
    ensures r == acc + EdgePoints(a, b, factors)
  {
    r := acc;
    for j := 0 to |factors|
      invariant r == acc + EdgePoints(a, b, factors[..j])
    {
      assert factors[..j + 1][..j] == factors[..j];
      r := r + [Interpolate(a, b, factors[j])];
    }
    assert factors[..|factors|] == factors;
  }

  /** Extending the prefix of the connection list by one connection. */
  lemma DensifyPrefixStep(s: LandmarkSet, conns: seq<Connection>, factors: seq<real>, i: int)
    requires 0 <= i < |conns|
    ensures Densify(s, conns[..i + 1], factors) == Densify(s, conns[..i], factors) + Span(s, conns[i].0, conns[i].1, factors)
  {
    TakeStep(conns, i + 1);
  }

  /** interpolateLandmarks' outer loop: push the edge points of every
      connection whose two endpoints are present. */
  method AppendDensified(acc: seq<Landmark>, s: LandmarkSet, conns: seq<Connection>, factors: seq<real>)
    returns (r: seq<Landmark>)
    ensures r == acc + Densify(s, conns, factors)
  {
    r := acc;
    for i := 0 to |conns|
      invariant r == acc + Densify(s, conns[..i], factors)
    {
      assert conns[..i + 1][..i] == conns[..i];
      var start, end := At(s, conns[i].0), At(s, conns[i].1);
      if start.Some? && end.Some? {
        r := AppendEdgePoints(r, start.value, end.value, factors);
      }
    }
    assert conns[..|conns|] == conns;
  }

  /** interpolateLandmarks: densify every connection with both endpoints present. */
  method InterpolateLandmarks(s: LandmarkSet, conns: seq<Connection>, factors: seq<real>) returns (r: seq<Landmark>)
    ensures r == Densify(s, conns, factors)
    ensures |r| == |factors| * PresentCount(s, conns)
  {
    r := AppendDensified([], s, conns, factors);
    DensifyLength(s, conns, factors);
  }

  /** The six contour groups, in the order enhanceFaceContours walks them. */
  function ContourSets(t: Topology): seq<seq<Connection>> {
    [t.faceOval, t.lips, t.leftEye, t.rightEye, t.leftEyebrow, t.rightEyebrow]
  }

  function Flatten(groups: seq<seq<Connection>>): seq<Connection> {
    if groups == [] then [] else Flatten(groups[..|groups| - 1]) + groups[|groups| - 1]
  }

  /** enhanceFaceContours: nine points per present contour edge, then the
      nose-bridge-to-chin (1-152) and cheek-to-cheek (234-454) midpoints. */
  function FaceContours(s: LandmarkSet, t: Topology): seq<Landmark> {
    Densify(s, Flatten(ContourSets(t)), NineFactors) + Span(s, 1, 152, Half) + Span(s, 234, 454, Half)
  }

  lemma FaceContoursLength(s: LandmarkSet, t: Topology)
    ensures |FaceContours(s, t)| == 9 * PresentCount(s, Flatten(ContourSets(t)))
      + (if Present(s, (1, 152)) then 1 else 0) + (if Present(s, (234, 454)) then 1 else 0)
  {
    DensifyLength(s, Flatten(ContourSets(t)), NineFactors);
  }

  lemma FaceContoursAtMost(s: LandmarkSet, t: Topology, c: real)
    requires AllAtMost(s, c)
    ensures forall l :: l in FaceContours(s, t) ==> l.visibility <= c
  {
    DensifyAtMost(s, Flatten(ContourSets(t)), NineFactors, c);
  }

  method EnhanceFaceContours(s: LandmarkSet, t: Topology) returns (r: seq<Landmark>)
    ensures r == FaceContours(s, t)
  {
    var contourSets := ContourSets(t);
    r := [];
    for k := 0 to |contourSets|
      invariant r == Densify(s, Flatten(contourSets[..k]), NineFactors)
    {
      r := AppendDensified(r, s, contourSets[k], NineFactors);
      assert contourSets[..k + 1][..k] == contourSets[..k];
      DensifyAppend(s, Flatten(contourSets[..k]), contourSets[k], NineFactors);
    }
    assert contourSets[..|contourSets|] == contourSets;
    var noseBridge, chin := At(s, 1), At(s, 152);
    if noseBridge.Some? && chin.Some? {
      r := r + [Interpolate(noseBridge.value, chin.value, 0.5)];
    }
    var leftCheek, rightCheek := At(s, 234), At(s, 454);
    if leftCheek.Some? && rightCheek.Some? {
      r := r + [Interpolate(leftCheek.value, rightCheek.value, 0.5)];
    }
  }

  /** Consecutive pairs of a list of indices. */
  function Pairs(xs: seq<int>): (r: seq<Connection>)
    ensures |r| == if |xs| < 2 then 0 else |xs| - 1
    ensures forall i :: 0 <= i < |r| ==> r[i] == (xs[i], xs[i + 1])
  {
    if |xs| < 2 then [] else seq(|xs| - 1, i requires 0 <= i < |xs| - 1 => (xs[i], xs[i + 1]))
  }

  /** interpolateHandJoints: nine points per present hand edge, then the
      midpoint of each present pair of neighbouring finger bases. */
  function HandJoints(s: LandmarkSet, hand: seq<Connection>): seq<Landmark> {
    Densify(s, hand, NineFactors) + Densify(s, Pairs(FingerBases), Half)
  }

  lemma HandJointsLength(s: LandmarkSet, hand: seq<Connection>)
    ensures |HandJoints(s, hand)| == 9 * PresentCount(s, hand) + PresentCount(s, Pairs(FingerBases))
    ensures PresentCount(s, Pairs(FingerBases)) <= 4
  {
    DensifyLength(s, hand, NineFactors);
    DensifyLength(s, Pairs(FingerBases), Half);
  }

  lemma HandJointsAtMost(s: LandmarkSet, hand: seq<Connection>, c: real)
    requires AllAtMost(s, c)
    ensures forall l :: l in HandJoints(s, hand) ==> l.visibility <= c
  {
    DensifyAtMost(s, hand, NineFactors, c);
    DensifyAtMost(s, Pairs(FingerBases), Half, c);
  }

  method InterpolateHandJoints(s: LandmarkSet, hand: seq<Connection>) returns (r: seq<Landmark>)
    ensures r == HandJoints(s, hand)
  {
    r := AppendDensified([], s, hand, NineFactors);
    ghost var edges := r;
    ghost var palm := Pairs(FingerBases);
    for i := 0 to |FingerBases| - 1
      invariant r == edges + Densify(s, palm[..i], Half)
    {
      assert palm[i] == (FingerBases[i], FingerBases[i + 1]);
      DensifyPrefixStep(s, palm, Half, i);
      ConcatAssoc(edges, Densify(s, palm[..i], Half), Span(s, FingerBases[i], FingerBases[i + 1], Half));
      r := PushMidpoint(r, s, FingerBases[i], FingerBases[i + 1]);
    }
    assert palm[..|palm|] == palm;
  }

  /** The points of one limb: the upper-segment midpoint, then the lower
      segment at 0.5, 0.25 and 0.75. */
  function Limb(p: LandmarkSet, root: int, joint: int, tip: int): (r: seq<Landmark>)
    ensures |r| <= 4
  {
    Span(p, root, joint, Half) + Span(p, joint, tip, ForearmFactors)
  }

  /** The shoulder and hip midpoints, each pushed only when both of its
      endpoints are present. */
  function Centres(p: LandmarkSet): seq<Landmark> {
    Span(p, 11, 12, Half) + Span(p, 23, 24, Half)
  }

  /** The list built up to the spine points: centres, torso centre when both
      centres were pushed, then the four limbs. */
  function UpToSpine(p: LandmarkSet): seq<Landmark> {
    var centres := Centres(p);
    var torso := if |centres| == 2 then [Interpolate(centres[0], centres[1], 0.5)] else [];
    centres + torso + Limbs(p)
  }

  /** Left arm, right arm, left leg, right leg. */
  function Limbs(p: LandmarkSet): seq<Landmark> {
    Limb(p, 11, 13, 15) + Limb(p, 12, 14, 16) + Limb(p, 23, 25, 27) + Limb(p, 24, 26, 28)
  }

  /** The shoulder-to-hip midpoints of each side. */
  function SideMidpoints(p: LandmarkSet): seq<Landmark> {
    Span(p, 11, 23, Half) + Span(p, 12, 24, Half)
  }

  /** generateVirtualLandmarks as written: the spine points interpolate from
      the nose towards whatever sits at position 1 of the list built so far. */
  function VirtualLandmarks(pose: Option<LandmarkSet>): (r: seq<Landmark>)
    ensures pose.None? ==> r == []
  {
    match pose
    case None => []
    case Some(p) =>
      var built := UpToSpine(p);
      var nose := At(p, 0);
      var spine := if nose.Some? && |built| > 1 then EdgePoints(nose.value, built[1], SpineFactors) else [];
      built + spine + SideMidpoints(p)
  }

  /** A reading of the same generator with the mid-hip held by name rather
      than by position in the output list. */
  function VirtualNamed(p: LandmarkSet): (r: seq<Landmark>)
    ensures |r| <= 23
  {
    var midShoulder := Span(p, 11, 12, Half);
    var midHip := Span(p, 23, 24, Half);
    var torso := if midShoulder != [] && midHip != [] then [Interpolate(midShoulder[0], midHip[0], 0.5)] else [];
    var nose := At(p, 0);
    var spine := if nose.Some? && midHip != [] then EdgePoints(nose.value, midHip[0], SpineFactors) else [];
    midShoulder + midHip + torso + Limbs(p) + spine + SideMidpoints(p)
  }

  /** With both shoulders and both hips present, position 1 is the mid-hip and
      the generator agrees with the named reading. */
  lemma VirtualMatchesNamed(p: LandmarkSet)
    requires Present(p, (11, 12)) && Present(p, (23, 24))
    ensures VirtualLandmarks(Some(p)) == VirtualNamed(p)
  {
    var ms, mh := Span(p, 11, 12, Half), Span(p, 23, 24, Half);
    EdgePointsSingle(At(p, 11).value, At(p, 12).value, 0.5);
    EdgePointsSingle(At(p, 23).value, At(p, 24).value, 0.5);
    var torso := [Interpolate(ms[0], mh[0], 0.5)];
    var limbs := Limbs(p);
    var built := UpToSpine(p);
    assert Centres(p) == ms + mh;
    assert built == ms + mh + torso + limbs;
    assert built[1] == mh[0];
  }

  /** The torso centre is pushed exactly when both centres were. */
  lemma TorsoCentreCondition(p: LandmarkSet)
    ensures |Centres(p)| == 2 <==> Present(p, (11, 12)) && Present(p, (23, 24))
    ensures Present(p, (11, 12)) && Present(p, (23, 24)) ==>
      var ms := Interpolate(At(p, 11).value, At(p, 12).value, 0.5);
      var mh := Interpolate(At(p, 23).value, At(p, 24).value, 0.5);
      VirtualLandmarks(Some(p))[..3] == [ms, mh, Interpolate(ms, mh, 0.5)]
  {
    if Present(p, (11, 12)) && Present(p, (23, 24)) {
      var r := VirtualLandmarks(Some(p));
      assert r[..3] == UpToSpine(p)[..3];
    }
  }

  /** No more than 23 virtual points: three centres, four points per limb,
      two spine points and two shoulder-to-hip midpoints. */
  lemma VirtualAtMost23(pose: Option<LandmarkSet>)
    ensures |VirtualLandmarks(pose)| <= 23
  {
  }

  /** With only the shoulders and hips present the result is mid-shoulder,
      mid-hip, torso centre and the two shoulder-to-hip midpoints. */
  lemma VirtualShouldersAndHipsOnly(p: LandmarkSet)
    requires |p| > 24
    requires forall idx :: 0 <= idx < |p| ==> (p[idx].Some? <==> idx == 11 || idx == 12 || idx == 23 || idx == 24)
    ensures var l11, l12, l23, l24 := p[11].value, p[12].value, p[23].value, p[24].value;
      var ms, mh := Interpolate(l11, l12, 0.5), Interpolate(l23, l24, 0.5);
      VirtualLandmarks(Some(p)) == [ms, mh, Interpolate(ms, mh, 0.5), Interpolate(l11, l23, 0.5), Interpolate(l12, l24, 0.5)]
  {
    var l11, l12, l23, l24 := p[11].value, p[12].value, p[23].value, p[24].value;
    var ms, mh := Interpolate(l11, l12, 0.5), Interpolate(l23, l24, 0.5);
    assert p[0].None? && At(p, 13).None? && At(p, 14).None? && At(p, 25).None? && At(p, 26).None?;
    EdgePointsSingle(l11, l12, 0.5);
    EdgePointsSingle(l23, l24, 0.5);
    EdgePointsSingle(l11, l23, 0.5);
    EdgePointsSingle(l12, l24, 0.5);
    assert Centres(p) == [ms, mh];
    assert Limb(p, 11, 13, 15) == [] && Limb(p, 12, 14, 16) == [] && Limb(p, 23, 25, 27) == [] && Limb(p, 24, 26, 28) == [];
    assert Limbs(p) == [];
    assert UpToSpine(p) == [ms, mh, Interpolate(ms, mh, 0.5)];
    assert SideMidpoints(p) == [Interpolate(l11, l23, 0.5), Interpolate(l12, l24, 0.5)];
  }

  lemma SpanLocal(p: LandmarkSet, q: LandmarkSet, i: int, j: int, factors: seq<real>)
    requires At(p, i) == At(q, i) && At(p, j) == At(q, j)
    ensures Span(p, i, j, factors) == Span(q, i, j, factors)
  {
  }

  /** Only indices 0, 11-16 and 23-28 influence the virtual points. */
  lemma VirtualLocal(p: LandmarkSet, q: LandmarkSet)
    requires forall idx :: idx in [0, 11, 12, 13, 14, 15, 16, 23, 24, 25, 26, 27, 28] ==> At(p, idx) == At(q, idx)
    ensures VirtualLandmarks(Some(p)) == VirtualLandmarks(Some(q))
  {
    assert At(p, 0) == At(q, 0) && At(p, 11) == At(q, 11) && At(p, 12) == At(q, 12);
    assert At(p, 13) == At(q, 13) && At(p, 14) == At(q, 14) && At(p, 15) == At(q, 15) && At(p, 16) == At(q, 16);
    assert At(p, 23) == At(q, 23) && At(p, 24) == At(q, 24) && At(p, 25) == At(q, 25);
    assert At(p, 26) == At(q, 26) && At(p, 27) == At(q, 27) && At(p, 28) == At(q, 28);
    SpanLocal(p, q, 11, 12, Half);
    SpanLocal(p, q, 23, 24, Half);
    assert Centres(p) == Centres(q);
    LimbLocal(p, q, 11, 13, 15);
    LimbLocal(p, q, 12, 14, 16);
    LimbLocal(p, q, 23, 25, 27);
    LimbLocal(p, q, 24, 26, 28);
    assert Limbs(p) == Limbs(q);
    assert UpToSpine(p) == UpToSpine(q);
    SpanLocal(p, q, 11, 23, Half);
    SpanLocal(p, q, 12, 24, Half);
    assert SideMidpoints(p) == SideMidpoints(q);
  }

  lemma LimbLocal(p: LandmarkSet, q: LandmarkSet, root: int, joint: int, tip: int)
    requires At(p, root) == At(q, root) && At(p, joint) == At(q, joint) && At(p, tip) == At(q, tip)
    ensures Limb(p, root, joint, tip) == Limb(q, root, joint, tip)
  {
    SpanLocal(p, q, root, joint, Half);
    SpanLocal(p, q, joint, tip, ForearmFactors);
  }

  lemma SpanAtMost(p: LandmarkSet, i: int, j: int, factors: seq<real>, c: real)
    requires AllAtMost(p, c)
    ensures forall l :: l in Span(p, i, j, factors) ==> l.visibility <= c
  {
    if Present(p, (i, j)) {
      EdgePointsAtMost(At(p, i).value, At(p, j).value, factors, c);
    }
  }

  lemma UpToSpineAtMost(p: LandmarkSet, c: real)
    requires AllAtMost(p, c)
    ensures forall l :: l in UpToSpine(p) ==> l.visibility <= c
  {
    SpanAtMost(p, 11, 12, Half, c);
    SpanAtMost(p, 23, 24, Half, c);
    SpanAtMost(p, 11, 13, Half, c);
    SpanAtMost(p, 13, 15, ForearmFactors, c);
    SpanAtMost(p, 12, 14, Half, c);
    SpanAtMost(p, 14, 16, ForearmFactors, c);
    SpanAtMost(p, 23, 25, Half, c);
    SpanAtMost(p, 25, 27, ForearmFactors, c);
    SpanAtMost(p, 24, 26, Half, c);
    SpanAtMost(p, 26, 28, ForearmFactors, c);
    var centres := Centres(p);
    assert forall l :: l in centres ==> l.visibility <= c;
    if |centres| == 2 {
      assert centres[0] in centres;
    }
  }

  /** Virtual points are never more confident than the pose input. */
  lemma VirtualAtMost(p: LandmarkSet, c: real)
    requires AllAtMost(p, c)
    ensures forall l :: l in VirtualLandmarks(Some(p)) ==> l.visibility <= c
  {
    UpToSpineAtMost(p, c);
    SpanAtMost(p, 11, 23, Half, c);
    SpanAtMost(p, 12, 24, Half, c);
    var built := UpToSpine(p);
    var nose := At(p, 0);
    if nose.Some? && |built| > 1 {
      EdgePointsAtMost(nose.value, built[1], SpineFactors, c);
    }
  }

  lemma EdgePointsSingle(a: Landmark, b: Landmark, f: real)
    ensures EdgePoints(a, b, [f]) == [Interpolate(a, b, f)]
  {
    assert [f][..0] == [];
  }

  /** As written, without the shoulders the spine heads for the left forearm
      midpoint instead of the mid-hip (nose, left elbow and wrist, both hips
      present; right elbow and both knees absent). */
  lemma VirtualSpineWithoutShoulders(p: LandmarkSet)
    requires At(p, 0).Some? && At(p, 13).Some? && At(p, 15).Some? && At(p, 23).Some? && At(p, 24).Some?
    requires At(p, 11).None? && At(p, 12).None? && At(p, 14).None? && At(p, 25).None? && At(p, 26).None?
    ensures var nose, mh := At(p, 0).value, Interpolate(At(p, 23).value, At(p, 24).value, 0.5);
      var forearm := Interpolate(At(p, 13).value, At(p, 15).value, 0.5);
      var r, named := VirtualLandmarks(Some(p)), VirtualNamed(p);
      |r| == 6 && |named| == 6 &&
      r[4] == Interpolate(nose, forearm, 0.33) && named[4] == Interpolate(nose, mh, 0.33) &&
      (forearm.x != mh.x ==> r != named)
  {
    var nose, elbow, wrist := At(p, 0).value, At(p, 13).value, At(p, 15).value;
    var mh := Interpolate(At(p, 23).value, At(p, 24).value, 0.5);
    var fore := EdgePoints(elbow, wrist, ForearmFactors);
    UpToSpineWithoutShoulders(p);
    EdgePointsTriple(elbow, wrist, ForearmFactors);
    var f0 := Interpolate(elbow, wrist, 0.5);
    var built := [mh] + fore;
    assert built[1] == f0;
    var r := VirtualLandmarks(Some(p));
    assert SideMidpoints(p) == [];
    assert r == built + EdgePoints(nose, f0, SpineFactors);
    EdgePointsPair(nose, f0, SpineFactors);
    NamedWithoutShoulders(p);
    EdgePointsPair(nose, mh, SpineFactors);
    var named := VirtualNamed(p);
    var r4, n4 := Interpolate(nose, f0, 0.33), Interpolate(nose, mh, 0.33);
    assert r[4] == r4 && named[4] == n4;
    if f0.x != mh.x {
      assert r4.x - n4.x == (f0.x - mh.x) * 0.33;
    }
  }

  /** Without the shoulders, and with the right elbow and both knees absent,
      the list before the spine is the mid-hip and the left forearm points. */
  lemma UpToSpineWithoutShoulders(p: LandmarkSet)
    requires At(p, 13).Some? && At(p, 15).Some? && At(p, 23).Some? && At(p, 24).Some?
    requires At(p, 11).None? && At(p, 12).None? && At(p, 14).None? && At(p, 25).None? && At(p, 26).None?
    ensures UpToSpine(p) == [Interpolate(At(p, 23).value, At(p, 24).value, 0.5)]
      + EdgePoints(At(p, 13).value, At(p, 15).value, ForearmFactors)
  {
    var mh := Interpolate(At(p, 23).value, At(p, 24).value, 0.5);
    EdgePointsSingle(At(p, 23).value, At(p, 24).value, 0.5);
    assert Centres(p) == [mh];
    LimbsWithoutShoulders(p);
  }

  /** Only the left forearm remains of the limbs under those absences. */
  lemma LimbsWithoutShoulders(p: LandmarkSet)
    requires At(p, 13).Some? && At(p, 15).Some?
    requires At(p, 11).None? && At(p, 12).None? && At(p, 14).None? && At(p, 25).None? && At(p, 26).None?
    ensures Limbs(p) == EdgePoints(At(p, 13).value, At(p, 15).value, ForearmFactors)
  {
    assert Limb(p, 11, 13, 15) == EdgePoints(At(p, 13).value, At(p, 15).value, ForearmFactors);
    assert Limb(p, 12, 14, 16) == [] && Limb(p, 23, 25, 27) == [] && Limb(p, 24, 26, 28) == [];
  }

  /** The named reading under the same absences: no mid-shoulder, no torso
      centre, and the spine heads for the mid-hip. */
  lemma NamedWithoutShoulders(p: LandmarkSet)
    requires At(p, 0).Some? && At(p, 13).Some? && At(p, 15).Some? && At(p, 23).Some? && At(p, 24).Some?
    requires At(p, 11).None? && At(p, 12).None? && At(p, 14).None? && At(p, 25).None? && At(p, 26).None?
    ensures var mh := Interpolate(At(p, 23).value, At(p, 24).value, 0.5);
      VirtualNamed(p) == [mh] + EdgePoints(At(p, 13).value, At(p, 15).value, ForearmFactors)
        + EdgePoints(At(p, 0).value, mh, SpineFactors)
  {
    var mh := Interpolate(At(p, 23).value, At(p, 24).value, 0.5);
    EdgePointsSingle(At(p, 23).value, At(p, 24).value, 0.5);
    assert Span(p, 23, 24, Half) == [mh];
    assert Span(p, 11, 12, Half) == [] && SideMidpoints(p) == [];
    LimbsWithoutShoulders(p);
  }

  lemma EdgePointsPair(a: Landmark, b: Landmark, factors: seq<real>)
    requires |factors| == 2
    ensures EdgePoints(a, b, factors) == [Interpolate(a, b, factors[0]), Interpolate(a, b, factors[1])]
  {
    EdgePointsAt(a, b, factors, 0);
    EdgePointsAt(a, b, factors, 1);
  }

  lemma EdgePointsTriple(a: Landmark, b: Landmark, factors: seq<real>)
    requires |factors| == 3
    ensures EdgePoints(a, b, factors) ==
      [Interpolate(a, b, factors[0]), Interpolate(a, b, factors[1]), Interpolate(a, b, factors[2])]
  {
    EdgePointsAt(a, b, factors, 0);
    EdgePointsAt(a, b, factors, 1);
    EdgePointsAt(a, b, factors, 2);
  }

  /** Push the midpoint of i-j when both endpoints are present. */
  method PushMidpoint(acc: seq<Landmark>, p: LandmarkSet, i: int, j: int) returns (r: seq<Landmark>)
    ensures r == acc + Span(p, i, j, Half)
  {
    r := acc;
    var a, b := At(p, i), At(p, j);
    if a.Some? && b.Some? {
      EdgePointsSingle(a.value, b.value, 0.5);
      r := r + [Interpolate(a.value, b.value, 0.5)];
    }
  }

  /** Push the points of one limb in generateVirtualLandmarks' order. */
  method PushLimb(acc: seq<Landmark>, p: LandmarkSet, root: int, joint: int, tip: int) returns (r: seq<Landmark>)
    ensures r == acc + Limb(p, root, joint, tip)
  {
    r := PushMidpoint(acc, p, root, joint);
    var a, b := At(p, joint), At(p, tip);
    if a.Some? && b.Some? {
      EdgePointsTriple(a.value, b.value, ForearmFactors);
      r := r + [Interpolate(a.value, b.value, 0.5), Interpolate(a.value, b.value, 0.25), Interpolate(a.value, b.value, 0.75)];
    }
  }

  /** The centres, the torso centre and the four limbs. */
  method PushUpToSpine(p: LandmarkSet) returns (r: seq<Landmark>)
    ensures r == UpToSpine(p)
  {
    r := PushMidpoint([], p, 11, 12);
    r := PushMidpoint(r, p, 23, 24);
    assert r == Centres(p);
    if |r| == 2 {
      r := r + [Interpolate(r[0], r[1], 0.5)];
    }
    r := PushLimbs(r, p);
  }

  /** Push the four limbs in order: left arm, right arm, left leg, right leg. */
  method PushLimbs(acc: seq<Landmark>, p: LandmarkSet) returns (r: seq<Landmark>)
    ensures r == acc + Limbs(p)
  {
    var l1, l2, l3, l4 := Limb(p, 11, 13, 15), Limb(p, 12, 14, 16), Limb(p, 23, 25, 27), Limb(p, 24, 26, 28);
    r := PushLimb(acc, p, 11, 13, 15);
    r := PushLimb(r, p, 12, 14, 16);
    ConcatAssoc(acc, l1, l2);
    r := PushLimb(r, p, 23, 25, 27);
    ConcatAssoc(acc, l1 + l2, l3);
    r := PushLimb(r, p, 24, 26, 28);
    ConcatAssoc(acc, l1 + l2 + l3, l4);
  }

  /** generateVirtualLandmarks, push by push. */
  method GenerateVirtualLandmarks(pose: Option<LandmarkSet>) returns (r: seq<Landmark>)
    ensures r == VirtualLandmarks(pose)
  {
    if pose.None? {
      return [];
    }
    var p := pose.value;
    r := PushUpToSpine(p);
    var nose := At(p, 0);
    if nose.Some? && |r| > 1 {
      var midHip := r[1];
      EdgePointsPair(nose.value, midHip, SpineFactors);
      r := r + [Interpolate(nose.value, midHip, 0.33), Interpolate(nose.value, midHip, 0.66)];
    }
    ghost var upper := r;
    r := PushMidpoint(r, p, 11, 23);
    r := PushMidpoint(r, p, 12, 24);
    ConcatAssoc(upper, Span(p, 11, 23, Half), Span(p, 12, 24, Half));
  }
}
