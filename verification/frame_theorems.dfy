/** What the detector callback promises about a whole frame: the canvas is
    cleared first and only then drawn on; each major landmark gets exactly its
    own guide marker, labels and feedback; the alignment checks happen for the
    major landmarks that can be checked, in catalog order; the guide and the
    overlay show every kept keypoint and every detected landmark. */
module FrameTheorems {
  import opened Catalog
  import opened Mapping
  import opened Distance
  import opened Frame
  import opened FrameProperties

  // ---------------------------------------------------------------------
  // The alignment verdict

  /** A landmark counts as aligned exactly when its normalized distance to
      the mirrored guide keypoint is at most the 0.06 threshold; a distance
      exactly at the threshold counts as aligned. */
  lemma AlignedIffWithinThreshold(d: real, detected: Point, guide: Point)
    requires IsDistance(d, detected.x, detected.y, 1.0 - guide.x, guide.y)
    ensures Aligned(detected, guide) <==> d <= ThresholdNormalized
  {
    ThresholdBySquares(d, detected.x, detected.y, 1.0 - guide.x, guide.y, ThresholdNormalized);
  }

  /** Mirroring the detected landmark instead of the guide keypoint gives the
      same verdict. */
  lemma AlignedMirrorEither(detected: Point, guide: Point)
    ensures Aligned(detected, guide)
        <==> SquaredDistance(1.0 - detected.x, detected.y, guide.x, guide.y)
             <= ThresholdNormalized * ThresholdNormalized
  {
    MirrorEitherPoint(detected.x, detected.y, guide.x, guide.y);
  }

  /** The verdict compares against the mirrored guide: a guide keypoint at
      (0.3, 0.4) is matched by a landmark detected at (0.7, 0.41) and not by
      one detected at (0.3, 0.41), although the latter is the nearer of the
      two to the unmirrored keypoint. */
  lemma MirroredVerdict()
    ensures Aligned(Point(0.7, 0.41), Point(0.3, 0.4))
    ensures !Aligned(Point(0.3, 0.41), Point(0.3, 0.4))
    ensures SquaredDistance(0.3, 0.41, 0.3, 0.4) < SquaredDistance(0.7, 0.41, 0.3, 0.4)
  {
  }

  // ---------------------------------------------------------------------
  // The shape of a frame

  /** The frame body holds no clear. */
  lemma BodyHasNoClear(m: Mappers, keypoints: seq<Entry>, landmarks: seq<Option<Point>>, showGuide: bool)
    ensures forall c :: c in FrameBody(m, keypoints, landmarks, showGuide) ==> !c.Clear?
  {
    GuidePartOnlyDots(keypoints, m);
    MajorsPartTagged(MajorKeys, keypoints, landmarks, m);
    OverlayPartOnlyOverlays(landmarks, m);
  }

  /** The parts of a frame are painted in order: every guide marker before
      every major-key command, and every overlay marker after both, so the
      detected landmarks' overlay ends up on top. */
  lemma PaintingOrder(m: Mappers, keypoints: seq<Entry>, landmarks: seq<Option<Point>>, showGuide: bool)
    ensures var b := FrameBody(m, keypoints, landmarks, showGuide);
      forall i, j :: 0 <= i < j < |b| ==> !(b[i].Overlay? && !b[j].Overlay?) && !(Tagged(b[i]) && b[j].GuideDot?)
  {
    var guide, majors, overlay := GuidePart(keypoints, m), MajorsPart(MajorKeys, keypoints, landmarks, m),
                                  OverlayPart(landmarks, m);
    var pre := if showGuide then guide + majors else [];
    var b := FrameBody(m, keypoints, landmarks, showGuide);
    assert b == pre + overlay;
    GuidePartOnlyDots(keypoints, m);
    MajorsPartTagged(MajorKeys, keypoints, landmarks, m);
    OverlayPartOnlyOverlays(landmarks, m);
    assert forall i :: 0 <= i < |pre| ==> !pre[i].Overlay? by {
      forall i | 0 <= i < |pre|
        ensures !pre[i].Overlay?
      {
        assert pre[i] in guide || pre[i] in majors;
      }
    }
    assert forall i :: |pre| <= i < |b| ==> b[i].Overlay? by {
      forall i | |pre| <= i < |b|
        ensures b[i].Overlay?
      {
        assert b[i] == overlay[i - |pre|];
      }
    }
    assert forall i :: 0 <= i < |pre| ==> b[i] == pre[i];
    if showGuide {
      assert forall i :: 0 <= i < |guide| ==> pre[i] == guide[i] && pre[i].GuideDot?;
      assert forall i :: |guide| <= i < |pre| ==> pre[i] == majors[i - |guide|] && Tagged(pre[i]);
    }
  }

  /** Without a 2D context nothing is drawn; with one, the canvas is cleared
      first and never again in the same frame. */
  lemma ClearFirst(hasContext: bool, intrinsicW: nat, intrinsicH: nat, canvasW: nat, canvasH: nat,
                   keypoints: seq<Entry>, landmarks: seq<Option<Point>>, showGuide: bool)
    ensures var f := FrameCommands(hasContext, intrinsicW, intrinsicH, canvasW, canvasH, keypoints, landmarks, showGuide);
      && (|f| > 0 <==> hasContext)
      && (hasContext ==> f[0] == Clear && forall i :: 0 < i < |f| ==> !f[i].Clear?)
  {
    var m := CreateMappers(intrinsicW, intrinsicH, canvasW, canvasH);
    BodyHasNoClear(m, keypoints, landmarks, showGuide);
  }

  /** With the guide hidden, a frame is the clear followed by overlay markers
      only. */
  lemma HiddenGuideOnlyOverlay(hasContext: bool, intrinsicW: nat, intrinsicH: nat, canvasW: nat, canvasH: nat,
                               keypoints: seq<Entry>, landmarks: seq<Option<Point>>)
    ensures forall c :: c in FrameCommands(hasContext, intrinsicW, intrinsicH, canvasW, canvasH, keypoints, landmarks, false)
                     ==> c.Clear? || c.Overlay?
  {
    var m := CreateMappers(intrinsicW, intrinsicH, canvasW, canvasH);
    OverlayPartOnlyOverlays(landmarks, m);
    assert FrameBody(m, keypoints, landmarks, false) == OverlayPart(landmarks, m);
  }

  // ---------------------------------------------------------------------
  // What is drawn for each major landmark

  /** The commands tagged with a landmark in a frame (its major marker, index
      labels, detected marker, line and glyph) are exactly its step of the
      major-key loop when the guide is shown and the landmark is major, and
      there are none otherwise. The untagged guide and overlay markers, which
      are drawn for major landmarks too, are described by GuideInFrame and
      OverlayInFrame. */
  lemma CommandsForKey(hasContext: bool, intrinsicW: nat, intrinsicH: nat, canvasW: nat, canvasH: nat,
                       keypoints: seq<Entry>, landmarks: seq<Option<Point>>, showGuide: bool, key: string)
    ensures ForKey(FrameCommands(hasContext, intrinsicW, intrinsicH, canvasW, canvasH, keypoints, landmarks, showGuide), key)
         == if hasContext && showGuide && key in MajorKeys
            then MajorStep(key, keypoints, landmarks, CreateMappers(intrinsicW, intrinsicH, canvasW, canvasH))
            else []
  {
    if hasContext {
      var m := CreateMappers(intrinsicW, intrinsicH, canvasW, canvasH);
      var guide, majors, overlay := GuidePart(keypoints, m), MajorsPart(MajorKeys, keypoints, landmarks, m),
                                    OverlayPart(landmarks, m);
      var pre := if showGuide then guide + majors else [];
      assert FrameBody(m, keypoints, landmarks, showGuide) == pre + overlay;
      ForKeyAppend([Clear], pre + overlay, key);
      NoTagged([Clear], key);
      ForKeyAppend(pre, overlay, key);
      OverlayPartOnlyOverlays(landmarks, m);
      NoTagged(overlay, key);
      if showGuide {
        ForKeyAppend(guide, majors, key);
        GuidePartOnlyDots(keypoints, m);
        NoTagged(guide, key);
        MajorKeysDistinct();
        ForKeyMajors(MajorKeys, keypoints, landmarks, m, key);
      }
    }
  }

  /** A major landmark the reference pose does not list draws nothing. */
  lemma UnlistedKeyDrawsNothing(hasContext: bool, intrinsicW: nat, intrinsicH: nat, canvasW: nat, canvasH: nat,
                                keypoints: seq<Entry>, landmarks: seq<Option<Point>>, showGuide: bool, key: string)
    requires Lookup(keypoints, key).None?
    ensures ForKey(FrameCommands(hasContext, intrinsicW, intrinsicH, canvasW, canvasH, keypoints, landmarks, showGuide), key) == []
  {
    CommandsForKey(hasContext, intrinsicW, intrinsicH, canvasW, canvasH, keypoints, landmarks, showGuide, key);
  }

  /** A listed major landmark that was not detected still gets its mirrored
      guide marker and its index label, and no feedback. */
  lemma UndetectedKeyGuideOnly(intrinsicW: nat, intrinsicH: nat, canvasW: nat, canvasH: nat,
                               keypoints: seq<Entry>, landmarks: seq<Option<Point>>, key: string, g: Point)
    requires key in MajorKeys && Lookup(keypoints, key) == Some(g)
    requires DetectedAt(landmarks, KeyToIndex[key]).None?
    ensures var gp := MapGuide(CreateMappers(intrinsicW, intrinsicH, canvasW, canvasH), g.x, g.y, true);
      ForKey(FrameCommands(true, intrinsicW, intrinsicH, canvasW, canvasH, keypoints, landmarks, true), key)
      == [MajorDot(key, gp), IndexLabel(key, KeyToIndex[key], gp)]
  {
    CommandsForKey(true, intrinsicW, intrinsicH, canvasW, canvasH, keypoints, landmarks, true, key);
  }

  /** A listed major landmark that was detected gets, in order: its major
      marker and index label at the mirrored guide point, its detected marker
      at the detected point, the connecting line, the status glyph, and the
      index label again next to the detected point. */
  lemma DetectedKeyStep(intrinsicW: nat, intrinsicH: nat, canvasW: nat, canvasH: nat,
                        keypoints: seq<Entry>, landmarks: seq<Option<Point>>, key: string, g: Point, d: Point)
    requires key in MajorKeys && Lookup(keypoints, key) == Some(g)
    requires DetectedAt(landmarks, KeyToIndex[key]) == Some(d)
    ensures var m := CreateMappers(intrinsicW, intrinsicH, canvasW, canvasH);
      var gp, dp := MapGuide(m, g.x, g.y, true), MapDetected(m, d.x, d.y);
      var colour := if Aligned(d, g) then Green else Red;
      var index := KeyToIndex[key];
      ForKey(FrameCommands(true, intrinsicW, intrinsicH, canvasW, canvasH, keypoints, landmarks, true), key)
      == [MajorDot(key, gp), IndexLabel(key, index, gp), DetectedDot(key, dp), Line(key, gp, dp, colour),
          Glyph(key, if Aligned(d, g) then Check else Cross, dp, colour), IndexLabel(key, index, dp)]
  {
    CommandsForKey(true, intrinsicW, intrinsicH, canvasW, canvasH, keypoints, landmarks, true, key);
  }

  /** Every connecting line in a frame belongs to a checkable major landmark,
      joins its mirrored guide point to its detected point, and is green
      exactly when the landmark is aligned. */
  lemma FrameLine(hasContext: bool, intrinsicW: nat, intrinsicH: nat, canvasW: nat, canvasH: nat,
                  keypoints: seq<Entry>, landmarks: seq<Option<Point>>, showGuide: bool, c: DrawCmd)
    requires c in FrameCommands(hasContext, intrinsicW, intrinsicH, canvasW, canvasH, keypoints, landmarks, showGuide)
    requires c.Line?
    ensures showGuide && c.key in MajorKeys && Checkable(c.key, keypoints, landmarks)
    ensures var m := CreateMappers(intrinsicW, intrinsicH, canvasW, canvasH);
      var g, d := Lookup(keypoints, c.key).value, DetectedAt(landmarks, KeyToIndex[c.key]).value;
      && c.from == MapGuide(m, g.x, g.y, true)
      && c.to == MapDetected(m, d.x, d.y)
      && (c.colour == Green <==> Aligned(d, g))
  {
    var f := FrameCommands(hasContext, intrinsicW, intrinsicH, canvasW, canvasH, keypoints, landmarks, showGuide);
    ForKeyMember(f, c);
    CommandsForKey(hasContext, intrinsicW, intrinsicH, canvasW, canvasH, keypoints, landmarks, showGuide, c.key);
    StepLine(c.key, keypoints, landmarks, CreateMappers(intrinsicW, intrinsicH, canvasW, canvasH), c);
  }

  /** Every status glyph in a frame belongs to a checkable major landmark and
      sits at its detected point; it is a green check mark when the landmark
      is aligned and a red cross otherwise. */
  lemma FrameGlyph(hasContext: bool, intrinsicW: nat, intrinsicH: nat, canvasW: nat, canvasH: nat,
                   keypoints: seq<Entry>, landmarks: seq<Option<Point>>, showGuide: bool, c: DrawCmd)
    requires c in FrameCommands(hasContext, intrinsicW, intrinsicH, canvasW, canvasH, keypoints, landmarks, showGuide)
    requires c.Glyph?
    ensures showGuide && c.key in MajorKeys && Checkable(c.key, keypoints, landmarks)
    ensures var m := CreateMappers(intrinsicW, intrinsicH, canvasW, canvasH);
      var g, d := Lookup(keypoints, c.key).value, DetectedAt(landmarks, KeyToIndex[c.key]).value;
      && c.at == MapDetected(m, d.x, d.y)
      && (c.symbol == Check <==> Aligned(d, g))
      && (c.colour == Green <==> Aligned(d, g))
  {
    var f := FrameCommands(hasContext, intrinsicW, intrinsicH, canvasW, canvasH, keypoints, landmarks, showGuide);
    ForKeyMember(f, c);
    CommandsForKey(hasContext, intrinsicW, intrinsicH, canvasW, canvasH, keypoints, landmarks, showGuide, c.key);
    StepGlyph(c.key, keypoints, landmarks, CreateMappers(intrinsicW, intrinsicH, canvasW, canvasH), c);
  }

  // ---------------------------------------------------------------------
  // The alignment checks of a frame

  /** The alignment checks of a frame, one per connecting line, are made for
      the checkable major landmarks in catalog order, and only when the guide
      is shown. */
  lemma ChecksInMajorOrder(hasContext: bool, intrinsicW: nat, intrinsicH: nat, canvasW: nat, canvasH: nat,
                           keypoints: seq<Entry>, landmarks: seq<Option<Point>>, showGuide: bool)
    ensures var f := FrameCommands(hasContext, intrinsicW, intrinsicH, canvasW, canvasH, keypoints, landmarks, showGuide);
      && LineKeys(f) == (if hasContext && showGuide then Checked(MajorKeys, keypoints, landmarks) else [])
      && |LineKeys(f)| <= |MajorKeys|
  {
    if hasContext {
      var m := CreateMappers(intrinsicW, intrinsicH, canvasW, canvasH);
      var guide, majors, overlay := GuidePart(keypoints, m), MajorsPart(MajorKeys, keypoints, landmarks, m),
                                    OverlayPart(landmarks, m);
      var pre := if showGuide then guide + majors else [];
      assert FrameBody(m, keypoints, landmarks, showGuide) == pre + overlay;
      LineKeysAppend([Clear], pre + overlay);
      NoLines([Clear]);
      LineKeysAppend(pre, overlay);
      OverlayPartOnlyOverlays(landmarks, m);
      NoLines(overlay);
      if showGuide {
        LineKeysAppend(guide, majors);
        GuidePartOnlyDots(keypoints, m);
        NoLines(guide);
        LineKeysMajors(MajorKeys, keypoints, landmarks, m);
      }
    }
  }

  /** A frame draws a connecting line for a landmark exactly when it has a
      2D context, the guide is shown, the landmark is major, the reference
      lists it and the detector reported it. */
  lemma LineDrawnIff(hasContext: bool, intrinsicW: nat, intrinsicH: nat, canvasW: nat, canvasH: nat,
                     keypoints: seq<Entry>, landmarks: seq<Option<Point>>, showGuide: bool, key: string)
    ensures (exists c :: c in FrameCommands(hasContext, intrinsicW, intrinsicH, canvasW, canvasH, keypoints, landmarks, showGuide)
                        && c.Line? && c.key == key)
        <==> hasContext && showGuide && key in MajorKeys && Checkable(key, keypoints, landmarks)
  {
    var f := FrameCommands(hasContext, intrinsicW, intrinsicH, canvasW, canvasH, keypoints, landmarks, showGuide);
    LineKeysMember(f, key);
    ChecksInMajorOrder(hasContext, intrinsicW, intrinsicH, canvasW, canvasH, keypoints, landmarks, showGuide);
  }

  /** When the detector reports no landmarks (`poseLandmarks` absent or
      empty), a frame draws no alignment feedback and no overlay, while the
      guide is still drawn. */
  lemma NoDetectionNoFeedback(hasContext: bool, intrinsicW: nat, intrinsicH: nat, canvasW: nat, canvasH: nat,
                              keypoints: seq<Entry>, showGuide: bool)
    ensures var f := FrameCommands(hasContext, intrinsicW, intrinsicH, canvasW, canvasH, keypoints, [], showGuide);
      && LineKeys(f) == []
      && (forall c :: c in f ==> c.Clear? || c.GuideDot? || c.MajorDot? || c.IndexLabel?)
  {
    var f := FrameCommands(hasContext, intrinsicW, intrinsicH, canvasW, canvasH, keypoints, [], showGuide);
    if hasContext {
      var m := CreateMappers(intrinsicW, intrinsicH, canvasW, canvasH);
      assert OverlayPart([], m) == [];
      var pre := if showGuide then GuidePart(keypoints, m) + MajorsPart(MajorKeys, keypoints, [], m) else [];
      assert f == [Clear] + pre;
      GuidePartOnlyDots(keypoints, m);
      MajorsPartUndetected(MajorKeys, keypoints, m);
      assert forall c :: c in f ==> c.Clear? || c.GuideDot? || c.MajorDot? || c.IndexLabel?;
    }
    NoLines(f);
  }

  /** With no landmarks, the major-key loop draws guide markers and index
      labels only. */
  lemma {:induction false} MajorsPartUndetected(keys: seq<string>, keypoints: seq<Entry>, m: Mappers)
    ensures forall c :: c in MajorsPart(keys, keypoints, [], m) ==> c.MajorDot? || c.IndexLabel?
  {
    if |keys| > 0 {
      MajorsPartUndetected(keys[..|keys| - 1], keypoints, m);
    }
  }

  // ---------------------------------------------------------------------
  // The guide and the overlay of a frame

  /** With a 2D context, the subtle guide markers of a frame are, in order,
      the mirrored positions of the keypoints that are not excluded when the
      guide is shown, and there are none when it is hidden. */
  lemma GuideInFrame(intrinsicW: nat, intrinsicH: nat, canvasW: nat, canvasH: nat,
                     keypoints: seq<Entry>, landmarks: seq<Option<Point>>, showGuide: bool)
    ensures var f := FrameCommands(true, intrinsicW, intrinsicH, canvasW, canvasH, keypoints, landmarks, showGuide);
      var m, k := CreateMappers(intrinsicW, intrinsicH, canvasW, canvasH), Kept(keypoints);
      && |GuideDots(f)| == (if showGuide then |k| else 0)
      && forall i :: 0 <= i < |GuideDots(f)| ==> GuideDots(f)[i] == MapGuide(m, k[i].coords.x, k[i].coords.y, true)
  {
    var m := CreateMappers(intrinsicW, intrinsicH, canvasW, canvasH);
    GuideDotsOfFrame(m, keypoints, landmarks, showGuide);
    if showGuide {
      GuidePartOnlyDots(keypoints, m);
      GuideDotsOfDots(GuidePart(keypoints, m));
      GuidePartIsKept(keypoints, m);
    }
  }

  /** Only the guide part of a frame draws guide markers. */
  lemma GuideDotsOfFrame(m: Mappers, keypoints: seq<Entry>, landmarks: seq<Option<Point>>, showGuide: bool)
    ensures GuideDots([Clear] + FrameBody(m, keypoints, landmarks, showGuide))
         == if showGuide then GuideDots(GuidePart(keypoints, m)) else []
  {
    var guide, majors, overlay := GuidePart(keypoints, m), MajorsPart(MajorKeys, keypoints, landmarks, m),
                                  OverlayPart(landmarks, m);
    var pre := if showGuide then guide + majors else [];
    assert FrameBody(m, keypoints, landmarks, showGuide) == pre + overlay;
    GuideDotsAppend([Clear], pre + overlay);
    NoGuideDots([Clear]);
    GuideDotsAppend(pre, overlay);
    OverlayPartOnlyOverlays(landmarks, m);
    NoGuideDots(overlay);
    if showGuide {
      GuideDotsAppend(guide, majors);
      MajorsPartUntagged(MajorKeys, keypoints, landmarks, m);
    } else {
      NoGuideDots(pre);
    }
  }

  /** With a 2D context, the overlay markers of a frame are, in order, the
      unmirrored positions of the landmarks the detector reported, whether or
      not the guide is shown. */
  lemma OverlayInFrame(intrinsicW: nat, intrinsicH: nat, canvasW: nat, canvasH: nat,
                       keypoints: seq<Entry>, landmarks: seq<Option<Point>>, showGuide: bool)
    ensures var f := FrameCommands(true, intrinsicW, intrinsicH, canvasW, canvasH, keypoints, landmarks, showGuide);
      var m, p := CreateMappers(intrinsicW, intrinsicH, canvasW, canvasH), Present(landmarks);
      && |Overlays(f)| == |p|
      && forall i :: 0 <= i < |p| ==> Overlays(f)[i] == MapDetected(m, p[i].x, p[i].y)
  {
    var m := CreateMappers(intrinsicW, intrinsicH, canvasW, canvasH);
    OverlaysOfFrame(m, keypoints, landmarks, showGuide);
    OverlayPartOnlyOverlays(landmarks, m);
    OverlaysOfOverlays(OverlayPart(landmarks, m));
    OverlayPartIsPresent(landmarks, m);
  }

  /** A frame is not skipped when the geometry is missing: with no intrinsic
      width and a canvas of width 0 the canvas is still cleared and every
      reported landmark is still overlaid, at NaN coordinates. */
  lemma MissingGeometryStillDrawn(intrinsicH: nat, canvasH: nat,
                                  keypoints: seq<Entry>, landmarks: seq<Option<Point>>, showGuide: bool)
    ensures var f := FrameCommands(true, 0, intrinsicH, 0, canvasH, keypoints, landmarks, showGuide);
      && f[0] == Clear
      && |Overlays(f)| == |Present(landmarks)|
      && forall i :: 0 <= i < |Overlays(f)| ==> Overlays(f)[i] == NaNPixel
  {
    OverlayInFrame(0, intrinsicH, 0, canvasH, keypoints, landmarks, showGuide);
  }

  /** Only the overlay part of a frame draws overlay markers. */
  lemma OverlaysOfFrame(m: Mappers, keypoints: seq<Entry>, landmarks: seq<Option<Point>>, showGuide: bool)
    ensures Overlays([Clear] + FrameBody(m, keypoints, landmarks, showGuide)) == Overlays(OverlayPart(landmarks, m))
  {
    var guide, majors, overlay := GuidePart(keypoints, m), MajorsPart(MajorKeys, keypoints, landmarks, m),
                                  OverlayPart(landmarks, m);
    var pre := if showGuide then guide + majors else [];
    assert FrameBody(m, keypoints, landmarks, showGuide) == pre + overlay;
    OverlaysAppend([Clear], pre + overlay);
    NoOverlays([Clear]);
    OverlaysAppend(pre, overlay);
    if showGuide {
      OverlaysAppend(guide, majors);
      MajorsPartUntagged(MajorKeys, keypoints, landmarks, m);
      GuidePartOnlyDots(keypoints, m);
      NoOverlays(guide);
    } else {
      NoOverlays(pre);
    }
  }
}
