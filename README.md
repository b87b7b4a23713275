# Holistic landmark post-processing, modelled in Dafny

The page in `script.js` runs the MediaPipe Holistic detector on camera or
uploaded media. Each result it gets back passes through a small
post-processing pipeline before anything reaches the canvas:

- a **throttle** drops results that arrive within 33 ms of the last
  processed one;
- an **FPS counter** publishes the number of frames in each window of at
  least one second;
- three **landmark smoothers** (pose 5 frames, face 3, one shared hand
  smoother 5) pass each set through unchanged until their buffer is full,
  then average each index over the buffered frames;
- **derived-point generators** densify connections, enhance the face
  contours, add hand joints and synthesise virtual pose landmarks;
- the **overlay** decides which segments and dots are drawn, with which
  colour and width, and counts `totalPoints`.

The model has five modules:

| module | file | contents |
|---|---|---|
| `Landmarks` | `landmarks.dfy` | Landmarks and landmark sets (`seq<Option<Landmark>>`; an index past either end reads as absent, as a falsy JS lookup does). Interpolation, the confidence filter and the three colour tiers. |
| `Smoothing` | `smoothing.dfy` | The `LandmarkSmoother` class: its buffer is a `seq` field that `Smooth` updates. The warm pass is a loop method (`MeanOverWindow`). Both are proved against the functions `Slide`, `Smoothed` and `SmoothOutput`. |
| `Derived` | `derived.dfy` | The four generators, each a method over its accumulator: three with loops (`InterpolateLandmarks`, `EnhanceFaceContours`, `InterpolateHandJoints`) and the straight-line push sequence `GenerateVirtualLandmarks`. Each is proved equal to a function (`Densify`, `FaceContours`, `HandJoints`, `VirtualLandmarks`). The lemmas are about those functions. |
| `Overlay` | `overlay.dfy` | Drawing decisions as a list of `DrawOp`s (a stroke with colour and width, or a dot with radius and confidence colour). The layers are pose, face, left hand, right hand. `Render` is the drawing part of `onResults`. `RenderFrame` builds it step by step, as the code does. |
| `Tracking` | `tracker.dfy` | The model configurations and the smoothing gate. The throttle and FPS state machine. `onResults`, `throttledOnResults`, `startTracking`, `stopProcessing`, the upload handler and the model selector as pure steps over a `State`, and as methods of the `Tracker` class with the same fields as the page's module-level variables. |

- **Topology.** `POSE_CONNECTIONS`, `FACEMESH_*` and `HAND_CONNECTIONS`
  come from the MediaPipe bundle, not from `script.js`, so they are a
  `Topology` parameter. All indices written in the file stay literal:
  - pose: 0, 11-16, 23-28;
  - face: 1, 152, 234, 454;
  - finger bases: 0, 5, 9, 13, 17.
- **Clock.** `performance.now()` is a `now: real` parameter. One reading
  serves both the throttle and `onResults`.
- **Confidence slider.** Its value is a `minConf: real` parameter.
- **Checkboxes.** They are a `Toggles` value.
- **Throws.** `drawLandmarks` throws on a null entry (`lm.visibility` of
  `null`). Only raw pose and hand sets reach it, so such a set can throw
  during the warm-up of their smoothers. This is modelled as `Render`
  returning `None` and the outcome `Threw`. `throttledOnResults` then
  stops processing, and still moves `lastDrawTime`.
- **Face line width.** The face connector styles without `lineWidth` give
  an undefined width (`undefined * x` is `NaN`, which the canvas ignores).
  They are modelled as `width == None`.

Three behaviours of the code that one might expect to be otherwise:

- **Shoulders and hips only.** With only the shoulders (11, 12) and hips
  (23, 24) present, one might expect three virtual points (mid-shoulder,
  mid-hip, torso centre); `generateVirtualLandmarks` returns five. The code also pushes the two shoulder-to-hip midpoints
  (`VirtualShouldersAndHipsOnly`).
- **`totalPoints`.** It counts the unfiltered raw and derived set lengths.
  With every confidence at or below the threshold nothing is drawn, yet a
  shown, non-empty pose still counts at least its raw landmarks, so the
  count is not 0 (`RenderLowFrameCounted`). In general the count is the same
  as at any other threshold (`PublishedIgnoresThreshold`). With nothing
  shown or nothing detected it is 0 at every threshold.
- **Spine points.** They take `virtual[1]` as the mid-hip, exactly as
  written. `VirtualNamed` is the reading with a named mid-hip. The two
  agree when both shoulders and both hips are present
  (`VirtualMatchesNamed`), and differ in the case that
  `VirtualSpineWithoutShoulders` exhibits.

## Model

| member | source | states |
|---|---|---|
| Landmarks.Interpolate | script.js:145-150 | The result's visibility is at most each endpoint's and equals one of them, i.e. it is their minimum. |
| Landmarks.InterpolateAtStart | script.js:145-150 | Factor 0 gives the start point's x, y and z. |
| Landmarks.InterpolateAtEnd | script.js:145-150 | Factor 1 gives the end point's x, y and z. |
| Landmarks.InterpolateDegenerate | script.js:145-150 | Interpolating a point with itself returns that point for every factor. |
| Landmarks.InterpolateReversed | script.js:145-150 | Interpolating b to a at 1 - f gives the same point as a to b at f. |
| Landmarks.InterpolateWithinEdge | script.js:145-150 | A factor in [0, 1] stays inside the bounding box of the two endpoints. |
| Landmarks.FilterByConfidence | script.js:108-110 | Keeps exactly the landmarks with visibility strictly above minConf, with no others and none missing. |
| Landmarks.FilterAppend | script.js:108-110 | Filtering works element by element: filter(a + b) = filter(a) + filter(b), so the original order is kept. |
| Landmarks.FilterKeepsAll | script.js:108-110 | A list whose every confidence is above the threshold is returned unchanged. |
| Landmarks.FilterDropsAll | script.js:108-110 | A list with no confidence above the threshold filters to the empty list. |
| Landmarks.ColourFor | script.js:112-116 | Green iff visibility > 0.8, yellow iff 0.5 < visibility <= 0.8, red iff visibility <= 0.5. |
| Landmarks.ColourMonotone | script.js:112-116 | Raising the visibility never moves a point into a lower tier. |
| Smoothing.Slide | script.js:69-70 | After the push the buffer holds at most windowSize frames, the newest last. Below the window it is the old buffer plus the frame. |
| Smoothing.Window | script.js:69-70 | The window of a stream holds at most windowSize frames, and no more than the stream. |
| Smoothing.SlideKeepsWindow | script.js:69-70 | A buffer holding the newest windowSize frames still holds them after the next push. |
| Smoothing.FeedIsWindow | script.js:69-70 | Pushing a stream into an empty smoother leaves exactly the stream's last windowSize frames. |
| Smoothing.AccumulateOnlySampled | script.js:74-83 | The totals at an index are those of the frames having an entry there. The divisor is their number, not the window size. |
| Smoothing.AccumulateCount | script.js:74-83 | The sample count at an index is positive iff some buffered frame has an entry there. |
| Smoothing.AccumulateConstant | script.js:74-83 | Over k copies of one frame, the totals are k times that frame's entry, or nothing when the entry is absent. |
| Smoothing.Accumulate | script.js:74-83 | The totals at an index over the buffer, oldest frame first. The sample count never exceeds the number of buffered frames. |
| Smoothing.Mean | script.js:84-89 | A mean exists iff there is a sample, and each mean coordinate times the sample count gives back its total. |
| Smoothing.MeanAt | script.js:74-89 | The mean at an index exists iff some buffered frame has an entry there. |
| Smoothing.Smoothed | script.js:73-90 | The smoothed list has at most one landmark per index of the newest frame. |
| Smoothing.MeanAtConstant | script.js:84-89 | The mean over identical frames is the entry itself; an absent entry gives no mean. |
| Smoothing.SmoothedConstant | script.js:73-90 | Smoothing identical frames yields that frame's landmarks, with null entries dropped. |
| Smoothing.SmoothIdenticalWindow | script.js:71-91 | A full window of copies of one complete frame smooths back to that frame. |
| Smoothing.SmoothedAligned | script.js:73-90 | When the newest frame is complete, nothing is dropped and output i is the mean at index i. |
| Smoothing.SmoothOutput | script.js:71-91 | What `smooth` returns: the input itself while the buffer is below the window, otherwise a set with no empty entry that is no longer than the input. |
| Smoothing.AccumulateWithin | script.js:74-83 | When every buffered confidence lies in [lo, hi], the confidence total lies between count * lo and count * hi. |
| Smoothing.SmoothedWithin | script.js:73-90 | Averaging keeps every output confidence inside any range all buffered samples respect. |
| Smoothing.MeanOverWindow | script.js:73-90 | The nested summing loop computes exactly `Smoothed`: one mean per index that has samples, in index order. |
| Smoothing.LandmarkSmoother.constructor | script.js:63-66 | A new smoother has the given window size and an empty buffer. |
| Smoothing.LandmarkSmoother.Smooth | script.js:68-92 | The buffer becomes `Slide` of the old one. Below the window the input is returned unchanged. At the window the result is the per-index means, complete and no longer than the input. |
| Derived.EdgePoints | script.js:158-160 | One point per factor. |
| Derived.EdgePointsAt | script.js:158-160 | The j-th point is the interpolation at the j-th factor. |
| Derived.EdgePointsAtMost | script.js:145-160 | No edge point is more confident than the endpoints. |
| Derived.Span | script.js:154-161 | A connection contributes its |factors| points when both endpoints are present, none otherwise. |
| Derived.DensifyLength | script.js:152-164 | `interpolateLandmarks` returns |factors| points per connection with both endpoints present. |
| Derived.Densify | script.js:152-164 | Reference definition of `interpolateLandmarks`: the connections in order, each contributing its `Span`. Characterised by `DensifyLength`, `DensifyAt` and `DensifyOnlyPresent`. |
| Derived.DensifyAppend | script.js:154-162 | Densifying a concatenation concatenates the densified parts, and the present counts add up. |
| Derived.DensifyAt | script.js:152-164 | The j-th point of the i-th present connection sits right after the points of the connections before it, so the order is connection by connection, then factor by factor. |
| Derived.DensifyOnlyPresent | script.js:152-164 | Every output point is the interpolation of some present connection at one of the factors. |
| Derived.DensifyAtMost | script.js:152-164 | No densified point is more confident than the set's landmarks. |
| Derived.AppendEdgePoints | script.js:158-160 | The factor loop appends exactly `EdgePoints` to the accumulator. |
| Derived.AppendDensified | script.js:154-162 | The connection loop appends exactly `Densify` to the accumulator. |
| Derived.InterpolateLandmarks | script.js:152-164 | Returns `Densify` of the connections, of length |factors| times the present-connection count. |
| Derived.FaceContoursLength | script.js:166-194 | Nine points per present contour edge, plus one each when {1, 152} and {234, 454} are present. |
| Derived.FaceContours | script.js:166-194 | Reference definition of `enhanceFaceContours`: the six contour lists densified at nine factors, then the 1-152 and 234-454 midpoints. Characterised by `FaceContoursLength` and `FaceContoursAtMost`. |
| Derived.FaceContoursAtMost | script.js:166-194 | No enhanced face point is more confident than the face landmarks. |
| Derived.EnhanceFaceContours | script.js:166-194 | The six contour passes and the two extra midpoints compute exactly `FaceContours`. |
| Derived.Pairs | script.js:208-215 | The finger-base pairs are the consecutive pairs of the list. |
| Derived.HandJointsLength | script.js:196-217 | Nine points per present hand edge, plus one midpoint per present finger-base pair; there are at most four of those. |
| Derived.HandJoints | script.js:196-217 | Reference definition of `interpolateHandJoints`: the hand connections at nine factors, then the finger-base midpoints. Characterised by `HandJointsLength` and `HandJointsAtMost`. |
| Derived.HandJointsAtMost | script.js:196-217 | No hand joint point is more confident than the hand landmarks. |
| Derived.InterpolateHandJoints | script.js:196-217 | The edge loop and the finger-base loop compute exactly `HandJoints`. |
| Derived.Limb | script.js:236-280 | A limb contributes at most four points. |
| Derived.VirtualLandmarks | script.js:219-220 | A null pose gives no virtual points. |
| Derived.TorsoCentreCondition | script.js:223-234 | Both centres are pushed iff both shoulders and both hips are present. Then the output starts with mid-shoulder, mid-hip and the torso centre. |
| Derived.VirtualAtMost23 | script.js:219-299 | At most 23 virtual points. |
| Derived.VirtualShouldersAndHipsOnly | script.js:219-299 | With only 11, 12, 23 and 24 present, the result is exactly five points: mid-shoulder, mid-hip, torso centre, left and right shoulder-to-hip. |
| Derived.VirtualLocal | script.js:219-299 | Only indices 0, 11-16 and 23-28 influence the result. |
| Derived.VirtualAtMost | script.js:219-299 | No virtual point is more confident than the pose landmarks. |
| Derived.UpToSpineAtMost | script.js:221-280 | The points built before the spine are no more confident than the pose landmarks. |
| Derived.VirtualMatchesNamed | script.js:282-287 | With both shoulders and both hips present, `virtual[1]` is the mid-hip, and the generator equals the reading with a named mid-hip. |
| Derived.VirtualNamed | script.js:282-287 | The generator read with the mid-hip held by name. It also yields at most 23 points, and equals the code's reading when both shoulders and both hips are present. |
| Derived.VirtualSpineWithoutShoulders | script.js:282-287 | Without shoulders (and without right elbow and knees), the spine heads for the left forearm midpoint instead of the mid-hip. The two readings differ whenever those points' x differ. |
| Derived.UpToSpineWithoutShoulders | script.js:221-280 | Under those absences, the list before the spine is the mid-hip followed by the three left-forearm points. |
| Derived.PushMidpoint | script.js:224-226 | Pushes the midpoint exactly when both endpoints are present. |
| Derived.PushLimb | script.js:239-246 | Pushes one limb's points in the code's order. |
| Derived.PushLimbs | script.js:236-280 | Pushes the four limbs: left arm, right arm, left leg, right leg. |
| Derived.PushUpToSpine | script.js:221-280 | The pushes before the spine build exactly `UpToSpine`. |
| Derived.GenerateVirtualLandmarks | script.js:219-299 | The push sequence computes exactly `VirtualLandmarks`, including the `virtual[1]` spine target. |
| Overlay.StrokeFor | script.js:134-140 | The segment runs from the start to the end landmark in the style's colour, and has a width iff the style has a lineWidth. |
| Overlay.StrokeWidthBound | script.js:139 | For a non-negative style width, the width is at most the style width times each endpoint's visibility and equals one of the two, i.e. the style width scaled by the weaker endpoint. |
| Overlay.StrokeWidthWithin | script.js:139 | With both endpoint confidences in [0, 1], the width lies between 0 and the style width. |
| Overlay.ConnectorOps | script.js:129-143 | At most one segment per connection. |
| Overlay.ConnectorOpsSound | script.js:131-142 | Every drawn segment comes from a connection with both endpoints present and above the threshold. |
| Overlay.ConnectorOpsComplete | script.js:131-142 | Every such connection has its segment drawn. |
| Overlay.ConnectorOpsAbove | script.js:134 | Every drawn segment has both endpoints strictly above the threshold. |
| Overlay.ConnectorOpsCount | script.js:131-142 | No more segments than connections with both endpoints present. |
| Overlay.ConnectorOpsNoneWhenLow | script.js:134 | When no confidence is above the threshold, no segment is drawn. |
| Overlay.Dots | script.js:121-126 | One dot for each landmark it is given. |
| Overlay.DotsAt | script.js:121-126 | The i-th dot sits at the i-th landmark with the style's lineWidth as radius, coloured by its confidence tier. |
| Overlay.DotOpsExactly | script.js:118-127 | Dots are drawn exactly for the landmarks above the threshold, each in its tier colour. |
| Overlay.DotOps | script.js:118-127 | What one `drawLandmarks` call dots, for a set without empty entries: the filtered landmarks, never more dots than landmarks. |
| Overlay.DotOpsNoneWhenLow | script.js:118-127 | Nothing is dotted when no confidence is above the threshold. |
| Overlay.PoseLayer | script.js:362-372 | The pose layer exists, i.e. does not throw, iff the pose set has no null entry. |
| Overlay.HandLayer | script.js:388-404 | A hand layer exists iff the hand set has no null entry. |
| Overlay.FaceStrokes | script.js:375-381 | Reference definition of the seven face connector passes, in drawing order, with their colours and widths. |
| Overlay.FaceLayer | script.js:374-386 | Reference definition of the face block: the seven passes, then the enhanced contour dots. The raw face points are never dotted. Characterised by `FaceLayerAbove`, `FaceLayerDots` and `FaceLayerNoneWhenLow`. |
| Overlay.PosePoints | script.js:362-372 | Reference definition of what the pose block adds to `totalPoints`: the raw, interpolated and virtual set lengths. Bounded by `PosePointsBound`. |
| Overlay.FacePoints | script.js:374-386 | Reference definition of what the face block adds: the raw and enhanced set lengths. |
| Overlay.HandPoints | script.js:388-404 | Reference definition of what a hand block adds: the raw and joint set lengths. |
| Overlay.TotalPoints | script.js:360-406 | Reference definition of `totalPoints`: the sum over the shown, present categories, before any confidence filtering. |
| Overlay.Throws | script.js:360-406 | Reference definition of when the drawing part throws: a shown pose or hand set with an empty entry. |
| Overlay.Render | script.js:360-406 | Drawing throws exactly when a shown pose or hand set has a null entry. Otherwise the frame's count is `TotalPoints`. |
| Overlay.RenderThresholdIndependent | script.js:360-406 | Whether drawing throws, and the count, do not depend on the confidence threshold. |
| Overlay.PoseLayerAbove | script.js:362-372 | Every pose segment and dot is above the threshold. |
| Overlay.FaceLayerAbove | script.js:374-386 | Every face segment and dot is above the threshold. |
| Overlay.HandLayerAbove | script.js:388-395 | Every hand segment and dot is above the threshold. |
| Overlay.RenderAboveThreshold | script.js:360-406 | Every drawn segment and dot of a frame is above the threshold. |
| Overlay.PoseLayerDots | script.js:362-372 | The pose layer draws no more dots than the pose points it counts. |
| Overlay.FaceLayerDots | script.js:374-386 | The face layer draws no more dots than the face points it counts. |
| Overlay.HandLayerDots | script.js:388-395 | A hand layer draws no more dots than the hand points it counts. |
| Overlay.RenderDotsBounded | script.js:360-406 | The published count never falls short of the dots drawn. |
| Overlay.PoseLayerNoneWhenLow | script.js:362-372 | A pose set entirely at or below the threshold draws nothing. |
| Overlay.FaceLayerNoneWhenLow | script.js:374-386 | A face set entirely at or below the threshold draws nothing. |
| Overlay.HandLayerNoneWhenLow | script.js:388-395 | A hand set entirely at or below the threshold draws nothing. |
| Overlay.RenderNothingWhenLow | script.js:360-406 | With every confidence at or below the threshold a frame draws nothing, whatever it counts. |
| Overlay.RenderLowFrameCounted | script.js:360-406 | With every confidence at or below the threshold and a shown, non-empty pose, nothing is drawn, but the count is at least the raw pose length, so it is positive. |
| Overlay.PosePointsBound | script.js:365-371 | The pose count is the set length plus four per present connection, plus at most 23 virtual points. |
| Overlay.DrawConnectors | script.js:129-143 | The connection loop appends exactly `ConnectorOps`. |
| Overlay.FilterEntries | script.js:118-120 | Filtering a set throws, giving None, iff it has a null entry. Otherwise it gives the filtered landmarks. |
| Overlay.PushDots | script.js:121-126 | The dot loop appends one dot per filtered landmark. |
| Overlay.DrawLandmarks | script.js:118-127 | Throws iff the set has a null entry. Otherwise it appends exactly `DotOps` of the set's landmarks. |
| Overlay.DrawPoints | script.js:366-367 | Dotting a generator's output never throws and appends exactly its `DotOps`. |
| Overlay.DrawPose | script.js:362-372 | The pose block appends the pose layer, or throws, and counts `PosePoints`. |
| Overlay.DrawFace | script.js:374-386 | The face block appends the seven connector passes and the contour dots, and counts `FacePoints`. |
| Overlay.DrawHand | script.js:388-404 | A hand block appends its layer, or throws, and counts `HandPoints`. |
| Overlay.DrawPosePart | script.js:362 | The pose block runs only when shown and present. |
| Overlay.DrawFacePart | script.js:374 | The face block runs only when shown and present. |
| Overlay.DrawHandPart | script.js:388-404 | A hand block runs only when hands are shown and that hand is present. |
| Overlay.RenderFrame | script.js:360-406 | The drawing part of `onResults`, with `totalPoints +=` along the way, computes exactly `Render`. |
| Tracking.ConfigOrdering | script.js:32-60 | Complexity falls and confidences rise from full to upper to lite, with tracking confidence equal to detection confidence. Only lite turns smoothing and face refinement off, and only full segments. |
| Tracking.Config | script.js:32-60 | Reference definition of `modelConfigs`: the complexity, flags and confidences of full, upper and lite. Compared by `ConfigOrdering`. |
| Tracking.ShouldSmooth | script.js:334 | Smoothing is skipped iff the source is an image and the model is lite. |
| Tracking.Admits | script.js:412 | Reference definition of the throttle test: strictly more than 33 ms since `lastDrawTime`. |
| Tracking.ThrottleStep | script.js:410-422 | `lastDrawTime` never moves back, and becomes `now` exactly when the call is admitted (or `now` already equals it). |
| Tracking.Admitted | script.js:410-422 | No more processed calls than calls. |
| Tracking.AdmittedSpaced | script.js:412 | Processed calls are strictly more than 33 ms apart, and the first is more than 33 ms after the initial `lastDrawTime`. |
| Tracking.AdmittedFromCalls | script.js:412 | Only actual calls are processed. Their order, strictly increasing and more than 33 ms apart, is `AdmittedSpaced`. |
| Tracking.LastDrawIsLastAdmitted | script.js:412-421 | `lastDrawTime` ends at the last processed call, or stays where it started. |
| Tracking.BurstDropped | script.js:412 | A burst within 33 ms of `lastDrawTime` is dropped as a whole and leaves `lastDrawTime` alone. |
| Tracking.CountFrame | script.js:325-332 | Reference definition of the FPS update for one processed frame. Characterised by `CountWithinWindow` and `FpsIsFramesOfWindow`. |
| Tracking.CountWithinWindow | script.js:325-332 | Inside one window, frames are only counted. |
| Tracking.FpsIsFramesOfWindow | script.js:325-332 | The first frame at least 1000 ms after `startTime` publishes the window's frame count, itself included, and restarts the window at that time. |
| Tracking.SmoothEntry | script.js:334-345 | One gated smoother call: a buffer within its window stays within it, a present set stays present and an absent one absent, and with smoothing off nothing changes. |
| Tracking.SmoothStage | script.js:334-345 | The four gated calls: the buffers stay within their windows, and each category is present afterwards iff it was before. |
| Tracking.SmoothingOff | script.js:334-345 | With smoothing off, nothing is buffered and no set changes. |
| Tracking.HandsShareBuffer | script.js:340-344 | With both hands present the shared hand buffer ends with the left, then the right hand, so the right hand is averaged over the left one. |
| Tracking.SlideFull | script.js:69-70 | A full buffer stays full. |
| Tracking.SmoothEntryDense | script.js:334-345 | A set smoothed through a full buffer comes out with no null entry. |
| Tracking.OnResultsStep | script.js:322-408 | Inactive: nothing changes and the outcome is `Skipped`. In every case `active`, `lastDrawTime`, the source and the model are untouched, the buffers stay within their windows, and nothing is dropped. |
| Tracking.ThrottledStep | script.js:410-422 | Reference definition of `throttledOnResults`. Characterised by `ThrottleGate` and `ThrowStops`. |
| Tracking.ThrottleGate | script.js:410-422 | The throttle alone decides whether anything happens. `lastDrawTime` follows it even when processing threw, and a dropped call changes nothing. |
| Tracking.ThrowStops | script.js:413-420 | A throw stops processing and publishes nothing, while the buffers and the frame counter keep this frame's updates. |
| Tracking.ThrowsExactly | script.js:362-404 | Processing throws iff a shown pose or hand set, after smoothing, has a null entry. |
| Tracking.FullBuffersNeverThrow | script.js:334-404 | With smoothing on and the pose and hand buffers full, no frame throws. |
| Tracking.PublishedIgnoresThreshold | script.js:360-406 | The state after a frame, the published count included, does not depend on the confidence threshold. |
| Tracking.Initial | script.js:19-30 | Reference definition of the page state at load. |
| Tracking.StopStep | script.js:448-449 | Reference definition of `stopProcessing` on this state: `active` cleared, everything else kept. |
| Tracking.StartStep | script.js:424-427 | `startTracking` always leaves processing active, keeping the buffers, the model and `lastDrawTime`. |
| Tracking.UploadStep | script.js:466-499 | With a file, processing stops. Without one nothing happens. The buffers and the model are kept. |
| Tracking.VideoReadyStep | script.js:520 | Reference definition of the video `onloadedmetadata` callback: processing resumes, whatever the source is by then. |
| Tracking.SelectModelStep | script.js:534-543 | The selector always leaves the chosen model in place. |
| Tracking.StartIdempotent | script.js:424-427 | Starting twice is starting once. |
| Tracking.ImageUploadSkipped | script.js:471-489 | After an image upload the source is the image and the result of its one frame is skipped, since processing is stopped. |
| Tracking.VideoUploadThenReady | script.js:496-521 | A video upload stops processing. Once the metadata loads, processing resumes on the video, with smoothing on for every model. |
| Tracking.SelectModelWhileActive | script.js:534-543 | While tracking the webcam, a model change keeps tracking with the new model. While processing an upload, it leaves processing stopped until the upload's callback restarts it. |
| Tracking.FirstFrameAfterStart | script.js:410-427 | After load and start, the first call past the throttle draws the raw sets unsmoothed. It throws exactly when a shown raw pose or hand set has an empty entry, a throw stops processing, and `lastDrawTime` becomes `now`. |
| Tracking.Tracker.constructor | script.js:19-30 | At load the state is `Initial`: inactive, `lastDrawTime` 0, webcam, full model, frame counter at zero. The three smoothers are new objects with windows 5, 3, 5 and empty buffers. |
| Tracking.Tracker.Stop | script.js:448-449 | `stopProcessing` is `StopStep`: it clears `active` and changes nothing else of this state. In particular the smoother buffers are not reset. |
| Tracking.Tracker.StartTracking | script.js:424-427 | The page state follows `StartStep`. |
| Tracking.Tracker.ProcessUpload | script.js:466-499 | The page state follows `UploadStep`. |
| Tracking.Tracker.VideoReady | script.js:520 | The page state follows `VideoReadyStep`. |
| Tracking.Tracker.SelectModel | script.js:534-543 | The page state follows `SelectModelStep`. |
| Tracking.Tracker.RecordFrame | script.js:325-332 | The counter moves as `CountFrame` says. |
| Tracking.Tracker.SmoothWith | script.js:334-345 | A gated smoother call updates that smoother's buffer and hands on the entry as `SmoothEntry` says. |
| Tracking.Tracker.OnResults | script.js:322-408 | The page state and the outcome follow `OnResultsStep`: skipped while inactive, otherwise counted, smoothed and drawn (or thrown). |
| Tracking.Tracker.ThrottledOnResults | script.js:410-422 | The page state and the outcome follow `ThrottledStep`. |
| Tracking.FirstResult | script.js:410-427 | A newly constructed tracker, started and then given one result past the throttle, processes it. The result is neither dropped nor skipped, and it throws exactly per `Throws` on the raw sets. |

## Left out

- DOM lookups, status and FPS or point-counter text, and button and
  keyboard wiring (script.js:1-17, 532-559). These are UI glue. The point
  count appears as the `published` field, and the fps value as a counter
  field.
- Canvas calls: `save`, `clearRect`, `drawImage`, `arc`, `stroke`,
  `restore` and segmentation-mask compositing (script.js:347-358). Only
  the decisions are modelled: which segments and dots are drawn, in what
  order, and with which colour, width and radius. Dot positions stay in
  normalised coordinates, because the canvas scaling does not affect any
  decision.
- Drawing is modelled as all or nothing. A frame that throws may, on a
  real canvas, already have drawn its connectors; the model drops the
  frame.
- `drawLandmarks` style colours are left out. The code ignores them:
  every dot is filled by its confidence tier.
- The `Holistic` detector, `Camera`, `initHolistic` and the CDN
  `locateFile`. These are foreign and asynchronous; their results enter
  as a `Results` value.
- `startTracking`, `stopProcessing`, `processUploadedFile` and the model
  selector (script.js:424-543) are modelled only through their effect on
  the page state: `active`, the source and the model. Left out are the
  media elements, the camera, `requestAnimationFrame` scheduling, the
  canvas resize and clear, and the `active && sourceType` checks that decide
  whether a frame is sent to the detector at all.
  - `onResults` checks `active` itself; that check is modelled.
  - The upload's asynchronous callbacks are separate steps. The image
    `onload` sends one frame, and that frame arrives while processing is
    stopped (`ImageUploadSkipped`). The video `onloadedmetadata` is
    `VideoReadyStep`.
  - So the image branch of the smoothing gate runs only when a video's
    metadata loads after a later image upload.
  - `initHolistic` is left out, so the chosen configuration reaches the
    detector only as the `model` field.
- `projectTo3D` and `drawProjectedLandmarks` (script.js:301-320) are never
  called.
- IEEE-754 rounding: the model uses exact reals, so properties about exact
  boundaries hold in reals, not necessarily in JS doubles.
- Face landmarks are taken to have a visibility field, like pose and hand
  landmarks.
- `script.js` neither draws face-mesh triangles nor mirrors the webcam
  image, so neither is part of this model.
