/** The drawing decisions of one frame: which segments and dots would reach
    the canvas, with which colour and width, and the published point count.
    Canvas calls themselves are abstracted to a list of draw operations. */
module Overlay {
  import opened Landmarks
  import opened Derived

  /** One canvas primitive: a stroked segment or a filled dot. A stroke width
      of None stands for a style without lineWidth (the product is NaN). */
  datatype DrawOp =
    | Stroke(from: Landmark, to: Landmark, colour: string, width: Option<real>)
    | Dot(at: Landmark, radius: real, colour: string)

  const PoseConnectorColour: string := "#00FF00"
  const TesselationColour: string := "#C0C0C070"
  const RightEyeColour: string := "#FF3030"
  const LeftEyeColour: string := "#30FF30"
  const OvalColour: string := "#E0E0E0"
  const LeftHandColour: string := "#CC0000"
  const RightHandColour: string := "#00CC00"

  /** The operation passes the confidence threshold: both endpoints of a
      stroke, the centre of a dot. */
  predicate AboveThreshold(op: DrawOp, minConf: real) {
    match op
    case Stroke(a, b, _, _) => a.visibility > minConf && b.visibility > minConf
    case Dot(l, _, _) => l.visibility > minConf
  }

  /** drawConnectors' segment rule: both endpoints present and both strictly
      above the threshold. */
  predicate Drawable(s: LandmarkSet, c: Connection, minConf: real) {
    Present(s, c) && At(s, c.0).value.visibility > minConf && At(s, c.1).value.visibility > minConf
  }

  /** The segment of a connection, its width scaled by the weaker endpoint. */
  function StrokeFor(s: LandmarkSet, c: Connection, colour: string, lineWidth: Option<real>): (op: DrawOp)
    requires Present(s, c)
    ensures op.Stroke? && op.from == At(s, c.0).value && op.to == At(s, c.1).value && op.colour == colour
    ensures op.width.Some? <==> lineWidth.Some?
  {
    var a, b := At(s, c.0).value, At(s, c.1).value;
    Stroke(a, b, colour, ScaledWidth(lineWidth, a, b))
  }

  /** The style width scaled by the weaker endpoint's visibility; none when
      the style has no width. */
  function ScaledWidth(lineWidth: Option<real>, a: Landmark, b: Landmark): Option<real> {
    if lineWidth.Some? then Some(lineWidth.value * Min(a.visibility, b.visibility)) else None
  }

  /** A non-negative base width shrinks with the weaker endpoint's confidence,
      and equals the base width scaled by one of the two. */
  lemma StrokeWidthBound(s: LandmarkSet, c: Connection, colour: string, w: real)
    requires Present(s, c) && w >= 0.0
    ensures var op := StrokeFor(s, c, colour, Some(w));
      op.width.value <= w * op.from.visibility && op.width.value <= w * op.to.visibility &&
      (op.width.value == w * op.from.visibility || op.width.value == w * op.to.visibility)
  {
    var a, b := At(s, c.0).value, At(s, c.1).value;
    MulMonotone(w, Min(a.visibility, b.visibility), a.visibility);
    MulMonotone(w, Min(a.visibility, b.visibility), b.visibility);
  }

  /** With both confidences in [0, 1], a stroke is never wider than its style
      width and never negative. */
  lemma StrokeWidthWithin(s: LandmarkSet, c: Connection, colour: string, w: real)
    requires Present(s, c) && w >= 0.0
    requires 0.0 <= At(s, c.0).value.visibility <= 1.0 && 0.0 <= At(s, c.1).value.visibility <= 1.0
    ensures var op := StrokeFor(s, c, colour, Some(w)); 0.0 <= op.width.value <= w
  {
    var a, b := At(s, c.0).value, At(s, c.1).value;
    var m := Min(a.visibility, b.visibility);
    MulMonotone(w, m, 1.0);
    MulMonotone(w, 0.0, m);
  }

  lemma MulMonotone(w: real, u: real, v: real)
    requires w >= 0.0 && u <= v
    ensures w * u <= w * v
  {
    assert w * v - w * u == w * (v - u);
  }

  /** drawConnectors: the segments of the drawable connections, in order. */
  function ConnectorOps(s: LandmarkSet, conns: seq<Connection>, colour: string, lineWidth: Option<real>, minConf: real): (r: seq<DrawOp>)
    ensures |r| <= |conns|
  {
    if conns == [] then []
    else
      var c := conns[|conns| - 1];
      ConnectorOps(s, conns[..|conns| - 1], colour, lineWidth, minConf) +
        (if Drawable(s, c, minConf) then [StrokeFor(s, c, colour, lineWidth)] else [])
  }

  /** Every segment drawn belongs to a drawable connection. */
  lemma {:induction false} ConnectorOpsSound(s: LandmarkSet, conns: seq<Connection>, colour: string, lineWidth: Option<real>, minConf: real, k: int)
    requires 0 <= k < |ConnectorOps(s, conns, colour, lineWidth, minConf)|
    ensures exists i :: 0 <= i < |conns| && Drawable(s, conns[i], minConf) &&
                        ConnectorOps(s, conns, colour, lineWidth, minConf)[k] == StrokeFor(s, conns[i], colour, lineWidth)
  {
    var prefix := conns[..|conns| - 1];
    var d := ConnectorOps(s, prefix, colour, lineWidth, minConf);
    if k < |d| {
      ConnectorOpsSound(s, prefix, colour, lineWidth, minConf, k);
      var i :| 0 <= i < |prefix| && Drawable(s, prefix[i], minConf) && d[k] == StrokeFor(s, prefix[i], colour, lineWidth);
      assert conns[i] == prefix[i];
    } else {
      assert 0 <= |conns| - 1 < |conns|;
    }
  }

  /** Every drawable connection is drawn. */
  lemma {:induction false} ConnectorOpsComplete(s: LandmarkSet, conns: seq<Connection>, colour: string, lineWidth: Option<real>, minConf: real, i: int)
    requires 0 <= i < |conns| && Drawable(s, conns[i], minConf)
    ensures StrokeFor(s, conns[i], colour, lineWidth) in ConnectorOps(s, conns, colour, lineWidth, minConf)
  {
    var prefix := conns[..|conns| - 1];
    if i < |conns| - 1 {
      ConnectorOpsComplete(s, prefix, colour, lineWidth, minConf, i);
      assert prefix[i] == conns[i];
    }
  }

  /** Segments are strokes above the threshold, in the requested colour. */
  lemma {:induction false} ConnectorOpsAbove(s: LandmarkSet, conns: seq<Connection>, colour: string, lineWidth: Option<real>, minConf: real)
    ensures forall op :: op in ConnectorOps(s, conns, colour, lineWidth, minConf) ==>
      op.Stroke? && op.colour == colour && AboveThreshold(op, minConf)
  {
    if conns != [] {
      ConnectorOpsAbove(s, conns[..|conns| - 1], colour, lineWidth, minConf);
    }
  }

  /** At most one segment per connection with both endpoints present. */
  lemma {:induction false} ConnectorOpsCount(s: LandmarkSet, conns: seq<Connection>, colour: string, lineWidth: Option<real>, minConf: real)
    ensures |ConnectorOps(s, conns, colour, lineWidth, minConf)| <= PresentCount(s, conns)
  {
    if conns != [] {
      ConnectorOpsCount(s, conns[..|conns| - 1], colour, lineWidth, minConf);
    }
  }

  /** Nothing is stroked when no present point beats the threshold. */
  lemma {:induction false} ConnectorOpsNoneWhenLow(s: LandmarkSet, conns: seq<Connection>, colour: string, lineWidth: Option<real>, minConf: real)
    requires AllAtMost(s, minConf)
    ensures ConnectorOps(s, conns, colour, lineWidth, minConf) == []
  {
    if conns != [] {
      ConnectorOpsNoneWhenLow(s, conns[..|conns| - 1], colour, lineWidth, minConf);
      var c := conns[|conns| - 1];
      if Present(s, c) {
        assert s[c.0].Some? && s[c.0].value.visibility <= minConf;
      }
    }
  }

  /** One dot per landmark, coloured by its confidence tier. */
  function Dots(lms: seq<Landmark>, radius: real): (r: seq<DrawOp>)
    ensures |r| == |lms|
  {
    if lms == [] then []
    else
      var l := lms[|lms| - 1];
      Dots(lms[..|lms| - 1], radius) + [Dot(l, radius, ColourFor(l.visibility))]
  }

  lemma {:induction false} DotsAt(lms: seq<Landmark>, radius: real, i: int)
    requires 0 <= i < |lms|
    ensures Dots(lms, radius)[i] == Dot(lms[i], radius, ColourFor(lms[i].visibility))
  {
    if i < |lms| - 1 {
      DotsAt(lms[..|lms| - 1], radius, i);
    }
  }

  /** drawLandmarks on an array of landmarks: the dots of the points above
      the threshold, in order. */
  function DotOps(lms: seq<Landmark>, radius: real, minConf: real): (r: seq<DrawOp>)
    ensures |r| <= |lms|
  {
    Dots(FilterByConfidence(lms, minConf), radius)
  }

  /** Dots are drawn exactly for the landmarks above the threshold. */
  lemma DotOpsExactly(lms: seq<Landmark>, radius: real, minConf: real)
    ensures forall op :: op in DotOps(lms, radius, minConf) ==>
      op.Dot? && op.radius == radius && op.at in lms && AboveThreshold(op, minConf) && op.colour == ColourFor(op.at.visibility)
    ensures forall l :: l in lms && l.visibility > minConf ==> Dot(l, radius, ColourFor(l.visibility)) in DotOps(lms, radius, minConf)
  {
    var f := FilterByConfidence(lms, minConf);
    var d := DotOps(lms, radius, minConf);
    forall op | op in d
      ensures op.Dot? && op.radius == radius && op.at in lms && AboveThreshold(op, minConf) && op.colour == ColourFor(op.at.visibility)
    {
      var k :| 0 <= k < |d| && d[k] == op;
      DotsAt(f, radius, k);
      assert f[k] in f;
    }
    forall l | l in lms && l.visibility > minConf
      ensures Dot(l, radius, ColourFor(l.visibility)) in d
    {
      var k :| 0 <= k < |f| && f[k] == l;
      DotsAt(f, radius, k);
    }
  }

  lemma DotOpsNoneWhenLow(lms: seq<Landmark>, radius: real, minConf: real)
    requires forall l :: l in lms ==> l.visibility <= minConf
    ensures DotOps(lms, radius, minConf) == []
  {
    assert forall i :: 0 <= i < |lms| ==> lms[i] in lms;
    FilterDropsAll(lms, minConf);
  }

  /** The number of dots in a list of operations. */
  function DotCount(ops: seq<DrawOp>): nat {
    if ops == [] then 0 else DotCount(ops[..|ops| - 1]) + (if ops[|ops| - 1].Dot? then 1 else 0)
  }

  lemma {:induction false} DotCountAppend(a: seq<DrawOp>, b: seq<DrawOp>)
    ensures DotCount(a + b) == DotCount(a) + DotCount(b)
  {
    if b == [] {
      assert a + b == a;
    } else {
      DotCountAppend(a, b[..|b| - 1]);
      assert (a + b)[..|a + b| - 1] == a + b[..|b| - 1];
    }
  }

  lemma {:induction false} DotCountDots(lms: seq<Landmark>, radius: real)
    ensures DotCount(Dots(lms, radius)) == |lms|
  {
    if lms != [] {
      DotCountDots(lms[..|lms| - 1], radius);
      assert Dots(lms, radius)[..|lms| - 1] == Dots(lms[..|lms| - 1], radius);
    }
  }

  lemma {:induction false} DotCountConnectors(s: LandmarkSet, conns: seq<Connection>, colour: string, lineWidth: Option<real>, minConf: real)
    ensures DotCount(ConnectorOps(s, conns, colour, lineWidth, minConf)) == 0
  {
    if conns != [] {
      var prefix := conns[..|conns| - 1];
      var c := conns[|conns| - 1];
      var d := ConnectorOps(s, prefix, colour, lineWidth, minConf);
      DotCountConnectors(s, prefix, colour, lineWidth, minConf);
      var tail := if Drawable(s, c, minConf) then [StrokeFor(s, c, colour, lineWidth)] else [];
      DotCountAppend(d, tail);
      if tail != [] {
        assert tail[..0] == [];
      }
    }
  }

  /** The landmark categories one detector result may hold. */
  datatype Results = Results(pose: Option<LandmarkSet>, face: Option<LandmarkSet>,
                             leftHand: Option<LandmarkSet>, rightHand: Option<LandmarkSet>)

  /** The three display check-boxes. */
  datatype Toggles = Toggles(showPose: bool, showFace: bool, showHands: bool)

  /** What one successful onResults leaves behind: the operations in drawing
      order and the point count it publishes. */
  datatype Frame = Frame(ops: seq<DrawOp>, totalPoints: nat)

  /** The pose layer: connectors, raw dots, interpolated dots, virtual dots.
      A raw set with an empty entry makes drawLandmarks throw (None). */
  function PoseLayer(p: LandmarkSet, t: Topology, minConf: real): (r: Option<seq<DrawOp>>)
    ensures r.Some? <==> AllPresent(p)
  {
    if AllPresent(p) then
      Some(ConnectorOps(p, t.pose, PoseConnectorColour, Some(4.0), minConf)
        + DotOps(Compact(p), 2.0, minConf)
        + DotOps(Densify(p, t.pose, DefaultFactors), 1.0, minConf)
        + DotOps(VirtualLandmarks(Some(p)), 3.0, minConf))
    else None
  }

  /** The face layer: tesselation, eyes and eyebrows, oval and lips, then the
      enhanced contour dots. The raw face points are never dotted. */
  function FaceLayer(f: LandmarkSet, t: Topology, minConf: real): seq<DrawOp> {
    FaceStrokes(f, t, minConf) + DotOps(FaceContours(f, t), 1.0, minConf)
  }

  /** The seven face connector passes, in drawing order. */
  function FaceStrokes(f: LandmarkSet, t: Topology, minConf: real): seq<DrawOp> {
    ConnectorOps(f, t.tesselation, TesselationColour, Some(1.0), minConf)
      + ConnectorOps(f, t.rightEye, RightEyeColour, None, minConf)
      + ConnectorOps(f, t.rightEyebrow, RightEyeColour, None, minConf)
      + ConnectorOps(f, t.leftEye, LeftEyeColour, None, minConf)
      + ConnectorOps(f, t.leftEyebrow, LeftEyeColour, None, minConf)
      + ConnectorOps(f, t.faceOval, OvalColour, None, minConf)
      + ConnectorOps(f, t.lips, OvalColour, None, minConf)
  }

  /** One hand layer: connectors, raw dots, joint dots. */
  function HandLayer(h: LandmarkSet, hand: seq<Connection>, colour: string, minConf: real): (r: Option<seq<DrawOp>>)
    ensures r.Some? <==> AllPresent(h)
  {
    if AllPresent(h) then
      Some(ConnectorOps(h, hand, colour, Some(5.0), minConf)
        + DotOps(Compact(h), 2.0, minConf)
        + DotOps(HandJoints(h, hand), 1.0, minConf))
    else None
  }

  function PosePoints(p: LandmarkSet, t: Topology): nat {
    |p| + |Densify(p, t.pose, DefaultFactors)| + |VirtualLandmarks(Some(p))|
  }

  function FacePoints(f: LandmarkSet, t: Topology): nat {
    |f| + |FaceContours(f, t)|
  }

  function HandPoints(h: LandmarkSet, t: Topology): nat {
    |h| + |HandJoints(h, t.hand)|
  }

  function PosePointsPart(r: Results, show: Toggles, t: Topology): nat {
    if show.showPose && r.pose.Some? then PosePoints(r.pose.value, t) else 0
  }

  function FacePointsPart(r: Results, show: Toggles, t: Topology): nat {
    if show.showFace && r.face.Some? then FacePoints(r.face.value, t) else 0
  }

  function HandPointsPart(h: Option<LandmarkSet>, show: Toggles, t: Topology): nat {
    if show.showHands && h.Some? then HandPoints(h.value, t) else 0
  }

  /** The point count of onResults: raw and derived set lengths of every
      shown, present category, before any confidence filtering. */
  function TotalPoints(r: Results, show: Toggles, t: Topology): nat {
    PosePointsPart(r, show, t) + FacePointsPart(r, show, t)
      + HandPointsPart(r.leftHand, show, t) + HandPointsPart(r.rightHand, show, t)
  }

  /** A shown pose or hand set with an empty entry. */
  predicate Throws(r: Results, show: Toggles) {
    (show.showPose && r.pose.Some? && !AllPresent(r.pose.value))
      || (show.showHands && r.leftHand.Some? && !AllPresent(r.leftHand.value))
      || (show.showHands && r.rightHand.Some? && !AllPresent(r.rightHand.value))
  }

  /** The pose operations of a frame: none when hidden or absent. */
  function PosePart(r: Results, show: Toggles, t: Topology, minConf: real): Option<seq<DrawOp>> {
    if show.showPose && r.pose.Some? then PoseLayer(r.pose.value, t, minConf) else Some([])
  }

  function FacePart(r: Results, show: Toggles, t: Topology, minConf: real): seq<DrawOp> {
    if show.showFace && r.face.Some? then FaceLayer(r.face.value, t, minConf) else []
  }

  function HandPart(h: Option<LandmarkSet>, show: Toggles, t: Topology, colour: string, minConf: real): Option<seq<DrawOp>> {
    if show.showHands && h.Some? then HandLayer(h.value, t.hand, colour, minConf) else Some([])
  }

  /** The drawing part of onResults: the layers in pose, face, left hand,
      right hand order; None when drawing threw. */
  function Render(r: Results, show: Toggles, t: Topology, minConf: real): (f: Option<Frame>)
    ensures f.None? <==> Throws(r, show)
    ensures f.Some? ==> f.value.totalPoints == TotalPoints(r, show, t)
  {
    var pose := PosePart(r, show, t, minConf);
    var left := HandPart(r.leftHand, show, t, LeftHandColour, minConf);
    var right := HandPart(r.rightHand, show, t, RightHandColour, minConf);
    if pose.Some? && left.Some? && right.Some? then
      Some(Frame(pose.value + FacePart(r, show, t, minConf) + left.value + right.value, TotalPoints(r, show, t)))
    else None
  }

  /** Raising or lowering the threshold changes what is drawn but neither
      whether drawing throws nor the published count. */
  lemma RenderThresholdIndependent(r: Results, show: Toggles, t: Topology, m1: real, m2: real)
    ensures Render(r, show, t, m1).Some? <==> Render(r, show, t, m2).Some?
    ensures Render(r, show, t, m1).Some? ==> Render(r, show, t, m1).value.totalPoints == Render(r, show, t, m2).value.totalPoints
  {
  }

  lemma PoseLayerAbove(p: LandmarkSet, t: Topology, minConf: real)
    requires AllPresent(p)
    ensures forall op :: op in PoseLayer(p, t, minConf).value ==> AboveThreshold(op, minConf)
  {
    ConnectorOpsAbove(p, t.pose, PoseConnectorColour, Some(4.0), minConf);
    DotOpsExactly(Compact(p), 2.0, minConf);
    DotOpsExactly(Densify(p, t.pose, DefaultFactors), 1.0, minConf);
    DotOpsExactly(VirtualLandmarks(Some(p)), 3.0, minConf);
  }

  lemma FaceLayerAbove(f: LandmarkSet, t: Topology, minConf: real)
    ensures forall op :: op in FaceLayer(f, t, minConf) ==> AboveThreshold(op, minConf)
  {
    ConnectorOpsAbove(f, t.tesselation, TesselationColour, Some(1.0), minConf);
    ConnectorOpsAbove(f, t.rightEye, RightEyeColour, None, minConf);
    ConnectorOpsAbove(f, t.rightEyebrow, RightEyeColour, None, minConf);
    ConnectorOpsAbove(f, t.leftEye, LeftEyeColour, None, minConf);
    ConnectorOpsAbove(f, t.leftEyebrow, LeftEyeColour, None, minConf);
    ConnectorOpsAbove(f, t.faceOval, OvalColour, None, minConf);
    ConnectorOpsAbove(f, t.lips, OvalColour, None, minConf);
    DotOpsExactly(FaceContours(f, t), 1.0, minConf);
  }

  lemma HandLayerAbove(h: LandmarkSet, hand: seq<Connection>, colour: string, minConf: real)
    requires AllPresent(h)
    ensures forall op :: op in HandLayer(h, hand, colour, minConf).value ==> AboveThreshold(op, minConf)
  {
    ConnectorOpsAbove(h, hand, colour, Some(5.0), minConf);
    DotOpsExactly(Compact(h), 2.0, minConf);
    DotOpsExactly(HandJoints(h, hand), 1.0, minConf);
  }

  /** Nothing below or at the threshold reaches the canvas. */
  lemma RenderAboveThreshold(r: Results, show: Toggles, t: Topology, minConf: real)
    requires Render(r, show, t, minConf).Some?
    ensures forall op :: op in Render(r, show, t, minConf).value.ops ==> AboveThreshold(op, minConf)
  {
    if show.showPose && r.pose.Some? {
      PoseLayerAbove(r.pose.value, t, minConf);
    }
    if show.showFace && r.face.Some? {
      FaceLayerAbove(r.face.value, t, minConf);
    }
    if show.showHands && r.leftHand.Some? {
      HandLayerAbove(r.leftHand.value, t.hand, LeftHandColour, minConf);
    }
    if show.showHands && r.rightHand.Some? {
      HandLayerAbove(r.rightHand.value, t.hand, RightHandColour, minConf);
    }
  }

  lemma PoseLayerDots(p: LandmarkSet, t: Topology, minConf: real)
    requires AllPresent(p)
    ensures DotCount(PoseLayer(p, t, minConf).value) <= PosePoints(p, t)
  {
    var c := ConnectorOps(p, t.pose, PoseConnectorColour, Some(4.0), minConf);
    var d1 := DotOps(Compact(p), 2.0, minConf);
    var d2 := DotOps(Densify(p, t.pose, DefaultFactors), 1.0, minConf);
    var d3 := DotOps(VirtualLandmarks(Some(p)), 3.0, minConf);
    DotCountConnectors(p, t.pose, PoseConnectorColour, Some(4.0), minConf);
    DotCountDots(FilterByConfidence(Compact(p), minConf), 2.0);
    DotCountDots(FilterByConfidence(Densify(p, t.pose, DefaultFactors), minConf), 1.0);
    DotCountDots(FilterByConfidence(VirtualLandmarks(Some(p)), minConf), 3.0);
    DotCountAppend(c, d1);
    DotCountAppend(c + d1, d2);
    DotCountAppend(c + d1 + d2, d3);
  }

  lemma FaceLayerDots(f: LandmarkSet, t: Topology, minConf: real)
    ensures DotCount(FaceLayer(f, t, minConf)) <= FacePoints(f, t)
  {
    var c1 := ConnectorOps(f, t.tesselation, TesselationColour, Some(1.0), minConf);
    var c2 := ConnectorOps(f, t.rightEye, RightEyeColour, None, minConf);
    var c3 := ConnectorOps(f, t.rightEyebrow, RightEyeColour, None, minConf);
    var c4 := ConnectorOps(f, t.leftEye, LeftEyeColour, None, minConf);
    var c5 := ConnectorOps(f, t.leftEyebrow, LeftEyeColour, None, minConf);
    var c6 := ConnectorOps(f, t.faceOval, OvalColour, None, minConf);
    var c7 := ConnectorOps(f, t.lips, OvalColour, None, minConf);
    var d := DotOps(FaceContours(f, t), 1.0, minConf);
    DotCountConnectors(f, t.tesselation, TesselationColour, Some(1.0), minConf);
    DotCountConnectors(f, t.rightEye, RightEyeColour, None, minConf);
    DotCountConnectors(f, t.rightEyebrow, RightEyeColour, None, minConf);
    DotCountConnectors(f, t.leftEye, LeftEyeColour, None, minConf);
    DotCountConnectors(f, t.leftEyebrow, LeftEyeColour, None, minConf);
    DotCountConnectors(f, t.faceOval, OvalColour, None, minConf);
    DotCountConnectors(f, t.lips, OvalColour, None, minConf);
    DotCountDots(FilterByConfidence(FaceContours(f, t), minConf), 1.0);
    DotCountAppend(c1, c2);
    DotCountAppend(c1 + c2, c3);
    DotCountAppend(c1 + c2 + c3, c4);
    DotCountAppend(c1 + c2 + c3 + c4, c5);
    DotCountAppend(c1 + c2 + c3 + c4 + c5, c6);
    DotCountAppend(c1 + c2 + c3 + c4 + c5 + c6, c7);
    DotCountAppend(c1 + c2 + c3 + c4 + c5 + c6 + c7, d);
  }

  lemma HandLayerDots(h: LandmarkSet, hand: seq<Connection>, colour: string, minConf: real)
    requires AllPresent(h)
    ensures DotCount(HandLayer(h, hand, colour, minConf).value) <= |h| + |HandJoints(h, hand)|
  {
    var c := ConnectorOps(h, hand, colour, Some(5.0), minConf);
    var d1 := DotOps(Compact(h), 2.0, minConf);
    var d2 := DotOps(HandJoints(h, hand), 1.0, minConf);
    DotCountConnectors(h, hand, colour, Some(5.0), minConf);
    DotCountDots(FilterByConfidence(Compact(h), minConf), 2.0);
    DotCountDots(FilterByConfidence(HandJoints(h, hand), minConf), 1.0);
    DotCountAppend(c, d1);
    DotCountAppend(c + d1, d2);
  }

  /** The published count never falls short of the dots drawn. */
  lemma RenderDotsBounded(r: Results, show: Toggles, t: Topology, minConf: real)
    requires Render(r, show, t, minConf).Some?
    ensures DotCount(Render(r, show, t, minConf).value.ops) <= Render(r, show, t, minConf).value.totalPoints
  {
    var pose, face := PosePart(r, show, t, minConf).value, FacePart(r, show, t, minConf);
    var left := HandPart(r.leftHand, show, t, LeftHandColour, minConf).value;
    var right := HandPart(r.rightHand, show, t, RightHandColour, minConf).value;
    if show.showPose && r.pose.Some? {
      PoseLayerDots(r.pose.value, t, minConf);
    }
    if show.showFace && r.face.Some? {
      FaceLayerDots(r.face.value, t, minConf);
    }
    if show.showHands && r.leftHand.Some? {
      HandLayerDots(r.leftHand.value, t.hand, LeftHandColour, minConf);
    }
    if show.showHands && r.rightHand.Some? {
      HandLayerDots(r.rightHand.value, t.hand, RightHandColour, minConf);
    }
    DotCountAppend(pose, face);
    DotCountAppend(pose + face, left);
    DotCountAppend(pose + face + left, right);
  }

  lemma CompactAtMost(s: LandmarkSet, c: real)
    requires AllAtMost(s, c)
    ensures forall l :: l in Compact(s) ==> l.visibility <= c
  {
    CompactMembers(s);
    forall l | l in Compact(s)
      ensures l.visibility <= c
    {
      var k :| 0 <= k < |s| && s[k] == Some(l);
    }
  }

  lemma PoseLayerNoneWhenLow(p: LandmarkSet, t: Topology, minConf: real)
    requires AllPresent(p) && AllAtMost(p, minConf)
    ensures PoseLayer(p, t, minConf).value == []
  {
    ConnectorOpsNoneWhenLow(p, t.pose, PoseConnectorColour, Some(4.0), minConf);
    CompactAtMost(p, minConf);
    DotOpsNoneWhenLow(Compact(p), 2.0, minConf);
    DensifyAtMost(p, t.pose, DefaultFactors, minConf);
    DotOpsNoneWhenLow(Densify(p, t.pose, DefaultFactors), 1.0, minConf);
    VirtualAtMost(p, minConf);
    DotOpsNoneWhenLow(VirtualLandmarks(Some(p)), 3.0, minConf);
  }

  lemma FaceLayerNoneWhenLow(f: LandmarkSet, t: Topology, minConf: real)
    requires AllAtMost(f, minConf)
    ensures FaceLayer(f, t, minConf) == []
  {
    ConnectorOpsNoneWhenLow(f, t.tesselation, TesselationColour, Some(1.0), minConf);
    ConnectorOpsNoneWhenLow(f, t.rightEye, RightEyeColour, None, minConf);
    ConnectorOpsNoneWhenLow(f, t.rightEyebrow, RightEyeColour, None, minConf);
    ConnectorOpsNoneWhenLow(f, t.leftEye, LeftEyeColour, None, minConf);
    ConnectorOpsNoneWhenLow(f, t.leftEyebrow, LeftEyeColour, None, minConf);
    ConnectorOpsNoneWhenLow(f, t.faceOval, OvalColour, None, minConf);
    ConnectorOpsNoneWhenLow(f, t.lips, OvalColour, None, minConf);
    FaceContoursAtMost(f, t, minConf);
    DotOpsNoneWhenLow(FaceContours(f, t), 1.0, minConf);
  }

  lemma HandLayerNoneWhenLow(h: LandmarkSet, hand: seq<Connection>, colour: string, minConf: real)
    requires AllPresent(h) && AllAtMost(h, minConf)
    ensures HandLayer(h, hand, colour, minConf).value == []
  {
    ConnectorOpsNoneWhenLow(h, hand, colour, Some(5.0), minConf);
    CompactAtMost(h, minConf);
    DotOpsNoneWhenLow(Compact(h), 2.0, minConf);
    HandJointsAtMost(h, hand, minConf);
    DotOpsNoneWhenLow(HandJoints(h, hand), 1.0, minConf);
  }

  /** Every point of the shown categories at or below the threshold: an
      empty canvas, while the published count stays the same. */
  lemma RenderNothingWhenLow(r: Results, show: Toggles, t: Topology, minConf: real)
    requires Render(r, show, t, minConf).Some?
    requires r.pose.Some? ==> AllAtMost(r.pose.value, minConf)
    requires r.face.Some? ==> AllAtMost(r.face.value, minConf)
    requires r.leftHand.Some? ==> AllAtMost(r.leftHand.value, minConf)
    requires r.rightHand.Some? ==> AllAtMost(r.rightHand.value, minConf)
    ensures Render(r, show, t, minConf).value.ops == []
  {
    if show.showPose && r.pose.Some? {
      PoseLayerNoneWhenLow(r.pose.value, t, minConf);
    }
    if show.showFace && r.face.Some? {
      FaceLayerNoneWhenLow(r.face.value, t, minConf);
    }
    if show.showHands && r.leftHand.Some? {
      HandLayerNoneWhenLow(r.leftHand.value, t.hand, LeftHandColour, minConf);
    }
    if show.showHands && r.rightHand.Some? {
      HandLayerNoneWhenLow(r.rightHand.value, t.hand, RightHandColour, minConf);
    }
  }

  /** A frame whose confidences are all at or below the threshold draws
      nothing, yet counts every raw pose landmark when the pose is shown. */
  lemma RenderLowFrameCounted(r: Results, show: Toggles, t: Topology, minConf: real)
    requires Render(r, show, t, minConf).Some?
    requires show.showPose && r.pose.Some? && |r.pose.value| > 0
    requires r.pose.Some? ==> AllAtMost(r.pose.value, minConf)
    requires r.face.Some? ==> AllAtMost(r.face.value, minConf)
    requires r.leftHand.Some? ==> AllAtMost(r.leftHand.value, minConf)
    requires r.rightHand.Some? ==> AllAtMost(r.rightHand.value, minConf)
    ensures Render(r, show, t, minConf).value.ops == []
    ensures Render(r, show, t, minConf).value.totalPoints >= |r.pose.value| > 0
  {
    RenderNothingWhenLow(r, show, t, minConf);
  }

  /** The pose contribution in terms of the connections present: four
      interpolated points per present connection and at most 23 virtual points. */
  lemma PosePointsBound(p: LandmarkSet, t: Topology)
    ensures PosePoints(p, t) <= |p| + 4 * PresentCount(p, t.pose) + 23
    ensures PosePoints(p, t) >= |p| + 4 * PresentCount(p, t.pose)
  {
    DensifyLength(p, t.pose, DefaultFactors);
    VirtualAtMost23(Some(p));
  }

  /** drawConnectors, connection by connection. */
  method DrawConnectors(acc: seq<DrawOp>, s: LandmarkSet, conns: seq<Connection>, colour: string, lineWidth: Option<real>, minConf: real)
    returns (r: seq<DrawOp>)
    ensures r == acc + ConnectorOps(s, conns, colour, lineWidth, minConf)
  {
    r := acc;
    for i := 0 to |conns|
      invariant r == acc + ConnectorOps(s, conns[..i], colour, lineWidth, minConf)
    {
      assert conns[..i + 1][..i] == conns[..i];
      var start, end := At(s, conns[i].0), At(s, conns[i].1);
      if start.Some? && end.Some? && start.value.visibility > minConf && end.value.visibility > minConf {
        r := r + [Stroke(start.value, end.value, colour, ScaledWidth(lineWidth, start.value, end.value))];
      }
    }
    assert conns[..|conns|] == conns;
  }

  lemma FilterStep(lms: LandmarkSet, i: int, minConf: real)
    requires 0 <= i < |lms| && lms[i].Some?
    ensures FilterByConfidence(Compact(lms[..i + 1]), minConf) ==
      FilterByConfidence(Compact(lms[..i]), minConf) + (if lms[i].value.visibility > minConf then [lms[i].value] else [])
  {
    var lm := lms[i].value;
    assert lms[..i + 1][..i] == lms[..i];
    assert Compact(lms[..i + 1]) == Compact(lms[..i]) + [lm];
    FilterAppend(Compact(lms[..i]), [lm], minConf);
    assert [lm][1..] == [];
  }

  lemma AllPresentStep(lms: LandmarkSet, i: int)
    requires 0 <= i < |lms| && AllPresent(lms[..i])
    ensures AllPresent(lms[..i + 1]) <==> lms[i].Some?
  {
    assert lms[..i + 1][i] == lms[i];
  }

  /** filterByConfidence on an array that may hold empty entries: reading
      the confidence of an empty entry throws (None). */
  method FilterEntries(lms: LandmarkSet, minConf: real) returns (r: Option<seq<Landmark>>)
    ensures r == if AllPresent(lms) then Some(FilterByConfidence(Compact(lms), minConf)) else None
  {
    var filtered := [];
    for i := 0 to |lms|
      invariant AllPresent(lms[..i])
      invariant filtered == FilterByConfidence(Compact(lms[..i]), minConf)
    {
      AllPresentStep(lms, i);
      if lms[i].None? {
        assert lms[..i + 1] == lms[..|lms|][..i + 1];
        return None;
      }
      var lm := lms[i].value;
      FilterStep(lms, i, minConf);
      if lm.visibility > minConf {
        filtered := filtered + [lm];
      }
    }
    assert lms[..|lms|] == lms;
    return Some(filtered);
  }

  /** One dot per filtered landmark, filled by its confidence colour. */
  method PushDots(acc: seq<DrawOp>, filtered: seq<Landmark>, radius: real) returns (r: seq<DrawOp>)
    ensures r == acc + Dots(filtered, radius)
  {
    r := acc;
    for j := 0 to |filtered|
      invariant r == acc + Dots(filtered[..j], radius)
    {
      assert filtered[..j + 1][..j] == filtered[..j];
      r := r + [Dot(filtered[j], radius, ColourFor(filtered[j].visibility))];
    }
    assert filtered[..|filtered|] == filtered;
  }

  /** drawLandmarks: filter the whole array first (an empty entry throws),
      then one dot per remaining landmark. */
  method DrawLandmarks(acc: seq<DrawOp>, lms: LandmarkSet, radius: real, minConf: real)
    returns (r: Option<seq<DrawOp>>)
    ensures r == if AllPresent(lms) then Some(acc + DotOps(Compact(lms), radius, minConf)) else None
  {
    var filtered := FilterEntries(lms, minConf);
    if filtered.None? {
      return None;
    }
    var dots := PushDots(acc, filtered.value, radius);
    return Some(dots);
  }

  lemma Assoc(a: seq<DrawOp>, b: seq<DrawOp>, c: seq<DrawOp>, d: seq<DrawOp>, e: seq<DrawOp>)
    ensures a + b + c + d + e == a + (b + c + d + e)
    ensures a + b + c + d == a + (b + c + d)
  {
  }

  lemma CompactLift(lms: seq<Landmark>)
    ensures Compact(Lift(lms)) == lms
  {
    CompactDense(Lift(lms));
  }

  /** drawLandmarks on a list the generators built, which has no empty entry. */
  method DrawPoints(acc: seq<DrawOp>, lms: seq<Landmark>, radius: real, minConf: real) returns (r: seq<DrawOp>)
    ensures r == acc + DotOps(lms, radius, minConf)
  {
    var drawn := DrawLandmarks(acc, Lift(lms), radius, minConf);
    CompactLift(lms);
    r := drawn.value;
  }

  method DrawPose(acc: seq<DrawOp>, p: LandmarkSet, t: Topology, minConf: real) returns (r: Option<seq<DrawOp>>, points: nat)
    ensures r == if AllPresent(p) then Some(acc + PoseLayer(p, t, minConf).value) else None
    ensures r.Some? ==> points == PosePoints(p, t)
  {
    var ops := DrawConnectors(acc, p, t.pose, PoseConnectorColour, Some(4.0), minConf);
    var drawn := DrawLandmarks(ops, p, 2.0, minConf);
    if drawn.None? {
      return None, 0;
    }
    ghost var c := ConnectorOps(p, t.pose, PoseConnectorColour, Some(4.0), minConf);
    ghost var d1 := DotOps(Compact(p), 2.0, minConf);
    points := |p|;
    var interpolated := InterpolateLandmarks(p, t.pose, DefaultFactors);
    ops := DrawPoints(drawn.value, interpolated, 1.0, minConf);
    ghost var d2 := DotOps(interpolated, 1.0, minConf);
    points := points + |interpolated|;
    var virtuals := GenerateVirtualLandmarks(Some(p));
    ops := DrawPoints(ops, virtuals, 3.0, minConf);
    ghost var d3 := DotOps(virtuals, 3.0, minConf);
    points := points + |virtuals|;
    assert ops == acc + c + d1 + d2 + d3;
    Assoc(acc, c, d1, d2, d3);
    r := Some(ops);
  }

  method DrawFace(acc: seq<DrawOp>, f: LandmarkSet, t: Topology, minConf: real) returns (r: seq<DrawOp>, points: nat)
    ensures r == acc + FaceLayer(f, t, minConf)
    ensures points == FacePoints(f, t)
  {
    var c1 := ConnectorOps(f, t.tesselation, TesselationColour, Some(1.0), minConf);
    var c2 := ConnectorOps(f, t.rightEye, RightEyeColour, None, minConf);
    var c3 := ConnectorOps(f, t.rightEyebrow, RightEyeColour, None, minConf);
    var c4 := ConnectorOps(f, t.leftEye, LeftEyeColour, None, minConf);
    var c5 := ConnectorOps(f, t.leftEyebrow, LeftEyeColour, None, minConf);
    var c6 := ConnectorOps(f, t.faceOval, OvalColour, None, minConf);
    var c7 := ConnectorOps(f, t.lips, OvalColour, None, minConf);
    r := DrawConnectors(acc, f, t.tesselation, TesselationColour, Some(1.0), minConf);
    r := DrawConnectors(r, f, t.rightEye, RightEyeColour, None, minConf);
    ConcatAssoc(acc, c1, c2);
    r := DrawConnectors(r, f, t.rightEyebrow, RightEyeColour, None, minConf);
    ConcatAssoc(acc, c1 + c2, c3);
    r := DrawConnectors(r, f, t.leftEye, LeftEyeColour, None, minConf);
    ConcatAssoc(acc, c1 + c2 + c3, c4);
    r := DrawConnectors(r, f, t.leftEyebrow, LeftEyeColour, None, minConf);
    ConcatAssoc(acc, c1 + c2 + c3 + c4, c5);
    r := DrawConnectors(r, f, t.faceOval, OvalColour, None, minConf);
    ConcatAssoc(acc, c1 + c2 + c3 + c4 + c5, c6);
    r := DrawConnectors(r, f, t.lips, OvalColour, None, minConf);
    ConcatAssoc(acc, c1 + c2 + c3 + c4 + c5 + c6, c7);
    ghost var strokes := FaceStrokes(f, t, minConf);
    assert r == acc + strokes;
    points := |f|;
    var enhanced := EnhanceFaceContours(f, t);
    r := DrawPoints(r, enhanced, 1.0, minConf);
    points := points + |enhanced|;
    ConcatAssoc(acc, strokes, DotOps(enhanced, 1.0, minConf));
  }

  method DrawHand(acc: seq<DrawOp>, h: LandmarkSet, t: Topology, colour: string, minConf: real) returns (r: Option<seq<DrawOp>>, points: nat)
    ensures r == if AllPresent(h) then Some(acc + HandLayer(h, t.hand, colour, minConf).value) else None
    ensures r.Some? ==> points == HandPoints(h, t)
  {
    var ops := DrawConnectors(acc, h, t.hand, colour, Some(5.0), minConf);
    var drawn := DrawLandmarks(ops, h, 2.0, minConf);
    if drawn.None? {
      return None, 0;
    }
    ghost var c := ConnectorOps(h, t.hand, colour, Some(5.0), minConf);
    ghost var d1 := DotOps(Compact(h), 2.0, minConf);
    points := |h|;
    var joints := InterpolateHandJoints(h, t.hand);
    ops := DrawPoints(drawn.value, joints, 1.0, minConf);
    ghost var d2 := DotOps(joints, 1.0, minConf);
    points := points + |joints|;
    assert ops == acc + c + d1 + d2;
    Assoc(acc, c, d1, d2, []);
    r := Some(ops);
  }

  lemma EmptyPrefix(s: seq<DrawOp>)
    ensures [] + s == s
  {
  }

  method DrawPosePart(r: Results, show: Toggles, t: Topology, minConf: real) returns (ops: Option<seq<DrawOp>>, points: nat)
    ensures ops == PosePart(r, show, t, minConf)
    ensures ops.Some? ==> points == PosePointsPart(r, show, t)
  {
    if show.showPose && r.pose.Some? {
      ops, points := DrawPose([], r.pose.value, t, minConf);
      ghost var layer := PoseLayer(r.pose.value, t, minConf);
      if layer.Some? {
        EmptyPrefix(layer.value);
      }
    } else {
      ops, points := Some([]), 0;
    }
  }

  method DrawFacePart(acc: seq<DrawOp>, r: Results, show: Toggles, t: Topology, minConf: real) returns (ops: seq<DrawOp>, points: nat)
    ensures ops == acc + FacePart(r, show, t, minConf)
    ensures points == FacePointsPart(r, show, t)
  {
    if show.showFace && r.face.Some? {
      ops, points := DrawFace(acc, r.face.value, t, minConf);
    } else {
      ops, points := acc, 0;
    }
  }

  method DrawHandPart(acc: seq<DrawOp>, h: Option<LandmarkSet>, show: Toggles, t: Topology, colour: string, minConf: real)
    returns (ops: Option<seq<DrawOp>>, points: nat)
    ensures ops == if HandPart(h, show, t, colour, minConf).Some? then Some(acc + HandPart(h, show, t, colour, minConf).value) else None
    ensures ops.Some? ==> points == HandPointsPart(h, show, t)
  {
    if show.showHands && h.Some? {
      ops, points := DrawHand(acc, h.value, t, colour, minConf);
    } else {
      ops, points := Some(acc), 0;
      assert acc + [] == acc;
    }
  }

  /** The drawing part of onResults, layer by layer, adding up totalPoints. */
  method RenderFrame(r: Results, show: Toggles, t: Topology, minConf: real) returns (f: Option<Frame>)
    ensures f == Render(r, show, t, minConf)
  {
    var totalPoints: nat := 0;
    var pose, posePoints := DrawPosePart(r, show, t, minConf);
    if pose.None? {
      return None;
    }
    totalPoints := totalPoints + posePoints;
    var ops, facePoints := DrawFacePart(pose.value, r, show, t, minConf);
    totalPoints := totalPoints + facePoints;
    var left, leftPoints := DrawHandPart(ops, r.leftHand, show, t, LeftHandColour, minConf);
    if left.None? {
      return None;
    }
    totalPoints := totalPoints + leftPoints;
    var right, rightPoints := DrawHandPart(left.value, r.rightHand, show, t, RightHandColour, minConf);
    if right.None? {
      return None;
    }
    totalPoints := totalPoints + rightPoints;
    ghost var poseOps, faceOps := PosePart(r, show, t, minConf).value, FacePart(r, show, t, minConf);
    ghost var leftOps := HandPart(r.leftHand, show, t, LeftHandColour, minConf).value;
    ghost var rightOps := HandPart(r.rightHand, show, t, RightHandColour, minConf).value;
    assert right.value == poseOps + faceOps + leftOps + rightOps;
    assert totalPoints == TotalPoints(r, show, t);
    f := Some(Frame(right.value, totalPoints));
  }
}
