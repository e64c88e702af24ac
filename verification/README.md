# Pose-alignment overlay: a Dafny model

This project models the geometric core of the exercise app's pose tracker. For
each camera frame, the detector reports up to 33 body landmarks in normalized
video coordinates. The frame callback then does the following:

- it clears the canvas;
- it maps the landmarks and the keypoints of a reference ("guide") pose to
  canvas pixels, taking into account the letterboxing of a video shown with
  `object-fit: contain`;
- it draws a subtle mirrored full-body guide;
- for the four major landmarks (both shoulders and both hips), it draws the
  guide marker, the index label and, when the landmark was detected, the
  detected marker, a connecting line and a check mark or a cross;
- it overlays every detected landmark.

A major landmark is aligned when its normalized distance to the mirrored guide
keypoint is at most 0.06.

The model has six modules:

- `Catalog` (`catalog.dfy`): the landmark tables `MajorKeys`, `KeyToIndex` and
  `ExcludeKeys`.
- `Mapping` (`mapping.dfy`): `createMappers` with `mapDetected` and `mapGuide`,
  over exact reals.
- `Distance` (`distance.dfy`): `computeNormalizedDistance`. A distance is any
  `d >= 0` whose square is `dx*dx + dy*dy`, and comparisons are made on squares.
- `Frame` (`frame.dfy`): the frame callback. `RenderFrame` and its loops
  `DrawGuide`, `DrawMajors`/`DrawMajor` and `DrawOverlay` build the list of
  draw commands. Each is proved equal to a specification function
  (`FrameCommands`, `GuidePart`, `MajorsPart`/`MajorStep`, `OverlayPart`).
- `FrameProperties` (`frame_properties.dfy`): views of a command list and
  lemmas about each part of a frame. The views are the commands of one
  landmark, the keys of the connecting lines, and the guide and overlay marker
  positions.
- `FrameTheorems` (`frame_theorems.dfy`): what a whole frame promises.

The canvas is abstracted as a list of draw commands. `Clear` stands for
`clearRect`. `GuideDot`, `MajorDot`, `DetectedDot` and `Overlay` stand for the
circles, `IndexLabel` and `Glyph` for the labels, and `Line` for the connecting
stroke, whose `Green`/`Red` colour is its stroke colour.

A frame has four inputs:

- whether a 2D context was obtained;
- the video's intrinsic size and the canvas size, as natural numbers;
- the reference keypoints, as a list of (name, point) entries in the order of
  `Object.entries`;
- the detected landmarks, as a list of optional points, where a hole stands for
  a missing landmark.

Two behaviours of the code at zero sizes are worth stating:

- When the intrinsic size and the canvas size on one axis are both 0,
  `createMappers` divides 0 by 0. The model records this as `Mapping.NaNScale`
  and `Mapping.NaNPixel`.
- When an axis has neither an intrinsic nor a canvas size, the frame is not
  skipped: the canvas is cleared and every draw call is still issued, at NaN
  coordinates (`FrameTheorems.MissingGeometryStillDrawn`). A canvas of size 0
  with a loaded video gives scale 0 and finite coordinates instead.

## Model

| member | source | states |
|---|---|---|
| Catalog.NameOf | src/utils/poseHelpers.ts:5-39 | every index 0..32 is the index of a catalogued landmark name |
| Catalog.NameOfIndex | src/utils/poseHelpers.ts:5-39 | every catalogued name has an index below 33 |
| Catalog.KeyToIndexInjective | src/utils/poseHelpers.ts:5-39 | two catalogued names share an index exactly when they are the same name |
| Catalog.KeyToIndexRange | src/utils/poseHelpers.ts:5-39 | the indices in use are exactly 0..32 |
| Catalog.MajorKeysCatalogued | src/utils/poseHelpers.ts:2 | the major keys are catalogued and not excluded from the guide; their indices are 11, 12, 23 and 24 |
| Catalog.MajorKeysDistinct | src/utils/poseHelpers.ts:2 | no major key is listed twice |
| Catalog.ExcludeKeysCatalogued | src/utils/poseHelpers.ts:42-60 | every excluded name is a catalogued landmark |
| Mapping.CreateMappers | src/utils/poseHelpers.ts:67-72 | the scale is 0/0 exactly when an axis has neither an intrinsic nor a canvas size; otherwise the effective video size is positive and the scale is not negative |
| Mapping.EffectiveVideoSize | src/utils/poseHelpers.ts:68-69 | on each axis the letterboxed video size is the intrinsic size when it is positive and the canvas size when it is 0 |
| Mapping.BarsOnShorterAxis | src/utils/poseHelpers.ts:62-72 | bars appear at the top and bottom exactly when the video is relatively wider than the canvas, at the sides exactly when it is relatively narrower, and nowhere when the aspect ratios agree |
| Mapping.FallbackToCanvas | src/utils/poseHelpers.ts:68-69 | with no intrinsic size and a canvas of positive size, the video is taken to be the canvas: scale 1 and no bars |
| Mapping.ScaleIsContain | src/utils/poseHelpers.ts:70 | the scaled video fits the canvas on both axes and fills it on at least one |
| Mapping.OffsetsCentre | src/utils/poseHelpers.ts:71-72 | the bars are non-negative and equal on both sides, and at least one axis has none |
| Mapping.ScalePositive | src/utils/poseHelpers.ts:70 | the scale is positive exactly when the canvas has positive width and height |
| Mapping.MapDetectedInCanvas | src/utils/poseHelpers.ts:74-78 | every normalized point in the unit square lands on the canvas |
| Mapping.MapGuideInCanvas | src/utils/poseHelpers.ts:80-83 | the same holds for guide points, mirrored or not |
| Mapping.CornersAtLetterbox | src/utils/poseHelpers.ts:70-78 | (0,0) maps to the offsets and (1,1) maps to the canvas size minus the offsets |
| Mapping.CentreToCentre | src/utils/poseHelpers.ts:70-78 | (0.5,0.5) maps to the canvas centre whatever the aspect ratios |
| Mapping.SameAspectNoBars | src/utils/poseHelpers.test.ts:13-21 | with equal aspect ratios there are no bars and the centre maps to the canvas centre |
| Mapping.WideVideoOnSquareCanvas | src/utils/poseHelpers.test.ts:24-35 | a 1920x1080 video on a 640x640 canvas has scale 1/3 and 140-pixel bars at the top and bottom |
| Mapping.MirrorLaws | src/utils/poseHelpers.ts:80-83 | unmirrored mapGuide is mapDetected; mirrored mapGuide is mapDetected of 1 - x; mirroring twice cancels out |
| Mapping.MirrorReflectsAboutCentre | src/utils/poseHelpers.ts:80-83 | mirroring reflects the pixel about the vertical centre line of the canvas and keeps y |
| Mapping.MapDetectedIncreasing | src/utils/poseHelpers.ts:74-78 | on a canvas of positive size, mapDetected is strictly increasing in each coordinate |
| Mapping.MirrorMovesOffCentre | src/utils/poseHelpers.test.ts:37-40 | the mirrored guide x differs from the detected x exactly when x is not 0.5 |
| Distance.SquareSign | src/utils/poseHelpers.ts:90-92 | a square is non-negative and zero only at zero |
| Distance.SquaredDistance | src/utils/poseHelpers.ts:89-93 | dx*dx + dy*dy is non-negative and zero exactly for identical points |
| Distance.ThresholdBySquares | src/utils/poseHelpers.ts:89-93 | a distance is within a threshold exactly when its square is within the threshold's square |
| Distance.DistanceUnique | src/utils/poseHelpers.ts:92 | the non-negative square root is unique, so the distance is a function of the points |
| Distance.DistanceZeroIffSame | src/utils/poseHelpers.test.ts:45-49 | the distance is 0 for identical points and positive otherwise |
| Distance.DistanceSymmetric | src/utils/poseHelpers.ts:89-93 | the distance does not depend on the order of the points |
| Distance.DotAtMostLengths | src/utils/poseHelpers.ts:89-93 | Cauchy-Schwarz in the plane, which the triangle inequality rests on |
| Distance.TriangleInequality | src/utils/poseHelpers.ts:89-93 | going through a third point is never shorter |
| Distance.MirrorEitherPoint | src/pages/PoseTracker.tsx:108 | mirroring the x of either point gives the same squared distance |
| Frame.Lookup | src/pages/PoseTracker.tsx:87-88 | the guide lookup finds nothing exactly when no entry has the name, and otherwise returns a listed entry's coordinates |
| Frame.DrawGuide | src/pages/PoseTracker.tsx:79-83 | the guide loop builds the guide part of the frame |
| Frame.DrawMajor | src/pages/PoseTracker.tsx:86-122 | the body of the major-key loop builds one key's step |
| Frame.DrawMajors | src/pages/PoseTracker.tsx:86-123 | the major-key loop builds the major keys' part of the frame |
| Frame.DrawOverlay | src/pages/PoseTracker.tsx:127-133 | the overlay loop builds the overlay part of the frame |
| Frame.RenderFrame | src/pages/PoseTracker.tsx:61-134 | the callback draws exactly the frame's command list |
| FrameProperties.Kept | src/pages/PoseTracker.tsx:79-80 | the kept guide keypoints are exactly the listed entries whose names are not excluded |
| FrameProperties.Present | src/pages/PoseTracker.tsx:127-129 | the present landmarks are exactly the reported points |
| FrameProperties.Checked | src/pages/PoseTracker.tsx:100 | the checked keys are exactly the given keys that are listed, catalogued and detected |
| FrameProperties.GuidePartIsKept | src/pages/PoseTracker.tsx:79-83 | the guide part is, in order, one mirrored marker per kept keypoint |
| FrameProperties.GuidePartOnlyDots | src/pages/PoseTracker.tsx:79-83 | the guide part draws guide markers only |
| FrameProperties.OverlayPartIsPresent | src/pages/PoseTracker.tsx:127-133 | the overlay part is, in order, one unmirrored marker per reported landmark |
| FrameProperties.OverlayPartOnlyOverlays | src/pages/PoseTracker.tsx:127-133 | the overlay part draws overlay markers only |
| FrameProperties.MajorStepTagged | src/pages/PoseTracker.tsx:86-123 | everything one major-key step draws belongs to that key |
| FrameProperties.MajorsPartTagged | src/pages/PoseTracker.tsx:86-123 | everything the major-key loop draws belongs to one of its keys |
| FrameProperties.ForKeyMajors | src/pages/PoseTracker.tsx:86-123 | among the major keys' commands, those of one key are exactly that key's step |
| FrameProperties.LineKeysStep | src/pages/PoseTracker.tsx:100-117 | a step draws one connecting line when its key is checkable and none otherwise |
| FrameProperties.LineKeysMajors | src/pages/PoseTracker.tsx:86-123 | the major keys' lines follow key order, one per checkable key |
| FrameProperties.MajorsPartUntagged | src/pages/PoseTracker.tsx:86-123 | the major-key loop draws no guide marker and no overlay marker |
| FrameProperties.StepLine | src/pages/PoseTracker.tsx:107-117 | a step's line joins the mirrored guide point to the detected point and is green exactly when aligned |
| FrameProperties.StepGlyph | src/pages/PoseTracker.tsx:119-120 | a step's glyph sits at the detected point and is a green check mark exactly when aligned, otherwise a red cross |
| FrameTheorems.AlignedIffWithinThreshold | src/pages/PoseTracker.tsx:73-109 | a landmark is aligned exactly when its distance to the mirrored guide keypoint is at most 0.06, and a tie counts |
| FrameTheorems.AlignedMirrorEither | src/pages/PoseTracker.tsx:108-109 | mirroring the detected landmark instead of the guide keypoint gives the same verdict |
| FrameTheorems.MirroredVerdict | src/pages/PoseTracker.tsx:108-109 | the verdict uses the mirrored guide: (0.7,0.41) matches a guide at (0.3,0.4) and (0.3,0.41) does not |
| FrameTheorems.BodyHasNoClear | src/pages/PoseTracker.tsx:75-133 | nothing after the clear is a clear |
| FrameTheorems.PaintingOrder | src/pages/PoseTracker.tsx:79-133 | the guide markers are painted before every major-key command, and the overlay markers after both, so the overlay is on top |
| FrameTheorems.ClearFirst | src/pages/PoseTracker.tsx:62-66 | without a context nothing is drawn; with one, the clear comes first and only once |
| FrameTheorems.HiddenGuideOnlyOverlay | src/pages/PoseTracker.tsx:75-133 | with the guide hidden, a frame is the clear and overlay markers only |
| FrameTheorems.CommandsForKey | src/pages/PoseTracker.tsx:61-134 | in a frame, the commands tagged with a landmark (major marker, index labels, detected marker, line, glyph) are exactly its major-key step when the guide is shown and the key is major, and there are none otherwise; the untagged guide and overlay markers are covered by GuideInFrame and OverlayInFrame |
| FrameTheorems.UnlistedKeyDrawsNothing | src/pages/PoseTracker.tsx:87-88 | a major key the reference pose does not list draws nothing |
| FrameTheorems.UndetectedKeyGuideOnly | src/pages/PoseTracker.tsx:89-100 | an undetected major key gets its guide marker and index label and no feedback |
| FrameTheorems.DetectedKeyStep | src/pages/PoseTracker.tsx:89-122 | a detected listed major key gets, in order, its major marker and index label at the mirrored guide point, its detected marker, the line, the check or cross glyph coloured by alignment, and its index label at the detected point |
| FrameTheorems.FrameLine | src/pages/PoseTracker.tsx:100-117 | every line in a frame belongs to a checkable major key, joins its mirrored guide point to its detected point, and is green exactly when aligned |
| FrameTheorems.FrameGlyph | src/pages/PoseTracker.tsx:119-120 | every glyph in a frame belongs to a checkable major key, sits at its detected point, and is a check mark exactly when aligned |
| FrameTheorems.ChecksInMajorOrder | src/pages/PoseTracker.tsx:75-123 | a frame makes its alignment checks in catalog order for the checkable major keys, at most four, and none when the guide is hidden |
| FrameTheorems.LineDrawnIff | src/pages/PoseTracker.tsx:75-117 | a line is drawn for a key exactly when there is a context, the guide is shown, and the key is major, listed and detected |
| FrameTheorems.MajorsPartUndetected | src/pages/PoseTracker.tsx:86-122 | with no landmarks, the major-key loop draws only guide markers and index labels |
| FrameTheorems.NoDetectionNoFeedback | src/pages/PoseTracker.tsx:100-133 | when the detector reports no landmarks, a frame draws no line, glyph, detected marker or overlay, only the clear and the guide |
| FrameTheorems.GuideInFrame | src/pages/PoseTracker.tsx:75-83 | a frame's guide markers are the kept keypoints' mirrored positions in order when the guide is shown, and there are none otherwise |
| FrameTheorems.OverlayInFrame | src/pages/PoseTracker.tsx:127-133 | a frame's overlay markers are the reported landmarks' positions in order, whether the guide is shown or not |
| FrameTheorems.MissingGeometryStillDrawn | src/utils/poseHelpers.ts:68-70 | with no width anywhere, the frame is still cleared and every landmark is still overlaid, at NaN coordinates |

## Left out

- Canvas drawing details are not modelled: radii, line widths, fonts, label
  offsets and colour strings. Commands carry only what they draw and where.
- The helpers `drawCircle` and `drawLabel` are left out; they are canvas I/O.
- Arithmetic is exact real arithmetic. IEEE rounding is not modelled, and
  neither is any NaN other than the 0/0 scale. `Math.sqrt` is not computed:
  `Distance.IsDistance` characterises its result.
- `Frame.Aligned` compares squared distances. With exact reals this is the
  same as comparing distances (`FrameTheorems.AlignedIffWithinThreshold`).
  Under floating point, rounding in `Math.sqrt` could change a verdict at the
  exact threshold.
- The React component, the resize handler, the camera, the MediaPipe detector
  and the reference pose file are not modelled. The 2D context, the sizes, the
  reference keypoints, the detected landmarks and the `showGuide` flag are
  parameters.
- `currentPose` is always set, because component state initialises it from the
  bundled pose file. The `&& currentPose` test is therefore not modelled.
- Order of reference keypoints: the model takes the order as given.
  `Object.entries` would list integer-like names first, but landmark names are
  never integer-like.
- Duplicate reference names cannot occur in a JavaScript object. The model's
  `Frame.Lookup` takes the first entry with a name.
- Malformed reference coordinate arrays (fewer than two numbers) are not
  modelled. Points always have two coordinates.
- Holes in the detected list: an absent `poseLandmarks` is the empty list, and
  a hole is skipped by the overlay. An element that is explicitly `undefined`
  would make the overlay loop throw in the source. The model treats it as a
  hole.
- The detected landmarks' `z` and `visibility` fields are not used by the core
  and are not modelled.
