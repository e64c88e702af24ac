/** One frame of the pose overlay: what the detector callback draws on the
    canvas for one detection result. Drawing is recorded as an abstract list
    of draw commands; the canvas primitives, radii, fonts and colour strings
    are not part of this model. */
module Frame {
  import opened Catalog
  import opened Mapping
  import opened Distance

  datatype Option<T> = None | Some(value: T)

  /** One guide keypoint of the reference pose: its landmark name and its
      normalized coordinates, in the order the reference lists them. */
  datatype Entry = Entry(name: string, coords: Point)

  /** The two stroke colours of the alignment feedback. */
  datatype Colour = Green | Red

  /** The two status glyphs: a check mark and a cross. */
  datatype Symbol = Check | Cross

  /** The draw calls of one frame. Commands drawn for a major landmark carry
      that landmark's name as `key`. */
  datatype DrawCmd =
    | Clear
    | GuideDot(at: Pixel)
    | MajorDot(key: string, at: Pixel)
    | IndexLabel(key: string, index: nat, at: Pixel)
    | DetectedDot(key: string, at: Pixel)
    | Line(key: string, from: Pixel, to: Pixel, colour: Colour)
    | Glyph(key: string, symbol: Symbol, at: Pixel, colour: Colour)
    | Overlay(at: Pixel)

  /** Commands that belong to one major landmark. */
  predicate Tagged(c: DrawCmd)
  {
    c.MajorDot? || c.IndexLabel? || c.DetectedDot? || c.Line? || c.Glyph?
  }

  /** The alignment threshold, in normalized units. */
  const ThresholdNormalized: real := 0.06

  /** A detected landmark is aligned with its guide keypoint when it lies
      within the threshold of the guide keypoint mirrored horizontally
      (x replaced by 1 - x); a distance exactly at the threshold counts. */
  predicate Aligned(detected: Point, guide: Point)
  {
    SquaredDistance(detected.x, detected.y, 1.0 - guide.x, guide.y)
      <= ThresholdNormalized * ThresholdNormalized
  }

  /** The value of `currentPose.keypoints[key]`: the coordinates listed
      under that name, or None when the reference has no such keypoint. */
  function Lookup(keypoints: seq<Entry>, key: string): (r: Option<Point>)
    ensures r.None? <==> forall i :: 0 <= i < |keypoints| ==> keypoints[i].name != key
    ensures r.Some? ==> exists i :: 0 <= i < |keypoints| && keypoints[i] == Entry(key, r.value)
  {
    if |keypoints| == 0 then None
    else if keypoints[0].name == key then Some(keypoints[0].coords)
    else Lookup(keypoints[1..], key)
  }

  /** The value of `results.poseLandmarks[index]`: None past the end of the
      list or at a hole in it. */
  function DetectedAt(landmarks: seq<Option<Point>>, index: nat): Option<Point>
  {
    if index < |landmarks| then landmarks[index] else None
  }

  /** A major key is alignment-checked in a frame exactly when the reference
      lists it, it has a landmark index, and the detector reported that
      landmark. */
  predicate Checkable(key: string, keypoints: seq<Entry>, landmarks: seq<Option<Point>>)
  {
    Lookup(keypoints, key).Some? && key in KeyToIndex && DetectedAt(landmarks, KeyToIndex[key]).Some?
  }

  /** The subtle guide marker of one keypoint: none for excluded names. */
  function GuideStep(e: Entry, m: Mappers): seq<DrawCmd>
  {
    if e.name in ExcludeKeys then [] else [GuideDot(MapGuide(m, e.coords.x, e.coords.y, true))]
  }

  /** The subtle full-body guide: one step per keypoint, in keypoint order. */
  function GuidePart(keypoints: seq<Entry>, m: Mappers): seq<DrawCmd>
  {
    if |keypoints| == 0 then []
    else GuidePart(keypoints[..|keypoints| - 1], m) + GuideStep(keypoints[|keypoints| - 1], m)
  }

  /** Everything drawn for one major key: its guide marker and index label,
      and, when the landmark was detected, the detected marker, the
      connecting line, the status glyph and the index label next to the
      detected point. */
  function MajorStep(key: string, keypoints: seq<Entry>, landmarks: seq<Option<Point>>, m: Mappers): seq<DrawCmd>
  {
    match Lookup(keypoints, key)
    case None => []
    case Some(g) =>
      var gp := MapGuide(m, g.x, g.y, true);
      if key !in KeyToIndex then [MajorDot(key, gp)]
      else
        var index := KeyToIndex[key];
        [MajorDot(key, gp), IndexLabel(key, index, gp)]
        + match DetectedAt(landmarks, index)
          case None => []
          case Some(d) =>
            var dp := MapDetected(m, d.x, d.y);
            var aligned := Aligned(d, g);
            var colour := if aligned then Green else Red;
            [DetectedDot(key, dp),
             Line(key, gp, dp, colour),
             Glyph(key, if aligned then Check else Cross, dp, colour),
             IndexLabel(key, index, dp)]
  }

  /** The major keys' commands, one step per key, in key order. */
  function MajorsPart(keys: seq<string>, keypoints: seq<Entry>, landmarks: seq<Option<Point>>, m: Mappers): seq<DrawCmd>
  {
    if |keys| == 0 then []
    else MajorsPart(keys[..|keys| - 1], keypoints, landmarks, m)
         + MajorStep(keys[|keys| - 1], keypoints, landmarks, m)
  }

  /** The overlay marker of one landmark slot: none for a hole. */
  function OverlayStep(o: Option<Point>, m: Mappers): seq<DrawCmd>
  {
    match o
    case None => []
    case Some(p) => [Overlay(MapDetected(m, p.x, p.y))]
  }

  /** The detected-landmark overlay, in landmark order. */
  function OverlayPart(landmarks: seq<Option<Point>>, m: Mappers): seq<DrawCmd>
  {
    if |landmarks| == 0 then []
    else OverlayPart(landmarks[..|landmarks| - 1], m) + OverlayStep(landmarks[|landmarks| - 1], m)
  }

  /** All commands of one frame. Without a 2D context nothing is drawn;
      otherwise the canvas is cleared, the mappers are built for this frame's
      sizes, and the frame is drawn with them. */
  function FrameCommands(hasContext: bool, intrinsicW: nat, intrinsicH: nat, canvasW: nat, canvasH: nat,
                         keypoints: seq<Entry>, landmarks: seq<Option<Point>>, showGuide: bool): seq<DrawCmd>
  {
    if !hasContext then []
    else [Clear] + FrameBody(CreateMappers(intrinsicW, intrinsicH, canvasW, canvasH), keypoints, landmarks, showGuide)
  }

  /** What follows the clear: the guide and the major keys when the guide is
      shown, then the detected landmarks' overlay. */
  function FrameBody(m: Mappers, keypoints: seq<Entry>, landmarks: seq<Option<Point>>, showGuide: bool): seq<DrawCmd>
  {
    (if showGuide then GuidePart(keypoints, m) + MajorsPart(MajorKeys, keypoints, landmarks, m) else [])
    + OverlayPart(landmarks, m)
  }

  /** The subtle guide loop: a marker for every keypoint whose name is not
      excluded, mirrored. */
  method DrawGuide(keypoints: seq<Entry>, m: Mappers) returns (cmds: seq<DrawCmd>)
    ensures cmds == GuidePart(keypoints, m)
  {
    cmds := [];
    var i := 0;
    while i < |keypoints|
      invariant 0 <= i <= |keypoints|
      invariant cmds == GuidePart(keypoints[..i], m)
    {
      var e := keypoints[i];
      if e.name !in ExcludeKeys {
        cmds := cmds + [GuideDot(MapGuide(m, e.coords.x, e.coords.y, true))];
      }
      assert keypoints[..i + 1][..i] == keypoints[..i];
      i := i + 1;
    }
    assert keypoints[..i] == keypoints;
  }

  /** The body of the major-key loop for one key. */
  method DrawMajor(key: string, keypoints: seq<Entry>, landmarks: seq<Option<Point>>, m: Mappers)
    returns (cmds: seq<DrawCmd>)
    ensures cmds == MajorStep(key, keypoints, landmarks, m)
  {
    cmds := [];
    var guide := Lookup(keypoints, key);
    if guide.None? {
      return;
    }
    var g := guide.value;
    var gp := MapGuide(m, g.x, g.y, true);
    cmds := cmds + [MajorDot(key, gp)];
    if key in KeyToIndex {
      var index := KeyToIndex[key];
      cmds := cmds + [IndexLabel(key, index, gp)];
      if index < |landmarks| && landmarks[index].Some? {
        var d := landmarks[index].value;
        var dp := MapDetected(m, d.x, d.y);
        cmds := cmds + [DetectedDot(key, dp)];
        var aligned := Aligned(d, g);
        var colour := if aligned then Green else Red;
        cmds := cmds + [Line(key, gp, dp, colour)];
        cmds := cmds + [Glyph(key, if aligned then Check else Cross, dp, colour)];
        cmds := cmds + [IndexLabel(key, index, dp)];
      }
    }
  }

  /** The major-key loop, over the given keys in order. */
  method DrawMajors(keys: seq<string>, keypoints: seq<Entry>, landmarks: seq<Option<Point>>, m: Mappers)
    returns (cmds: seq<DrawCmd>)
    ensures cmds == MajorsPart(keys, keypoints, landmarks, m)
  {
    cmds := [];
    var k := 0;
    while k < |keys|
      invariant 0 <= k <= |keys|
      invariant cmds == MajorsPart(keys[..k], keypoints, landmarks, m)
    {
      var step := DrawMajor(keys[k], keypoints, landmarks, m);
      cmds := cmds + step;
      assert keys[..k + 1][..k] == keys[..k];
      k := k + 1;
    }
    assert keys[..k] == keys;
  }

  /** The overlay loop: a marker for every detected landmark, unmirrored. */
  method DrawOverlay(landmarks: seq<Option<Point>>, m: Mappers) returns (cmds: seq<DrawCmd>)
    ensures cmds == OverlayPart(landmarks, m)
  {
    cmds := [];
    var j := 0;
    while j < |landmarks|
      invariant 0 <= j <= |landmarks|
      invariant cmds == OverlayPart(landmarks[..j], m)
    {
      if landmarks[j].Some? {
        var p := landmarks[j].value;
        cmds := cmds + [Overlay(MapDetected(m, p.x, p.y))];
      }
      assert landmarks[..j + 1][..j] == landmarks[..j];
      j := j + 1;
    }
    assert landmarks[..j] == landmarks;
  }

  /** The detector callback for one frame. */
  method RenderFrame(hasContext: bool, intrinsicW: nat, intrinsicH: nat, canvasW: nat, canvasH: nat,
                     keypoints: seq<Entry>, landmarks: seq<Option<Point>>, showGuide: bool)
    returns (cmds: seq<DrawCmd>)
    ensures cmds == FrameCommands(hasContext, intrinsicW, intrinsicH, canvasW, canvasH, keypoints, landmarks, showGuide)
  {
    if !hasContext {
      return [];
    }
    var m := CreateMappers(intrinsicW, intrinsicH, canvasW, canvasH);
    var body: seq<DrawCmd> := [];
    if showGuide {
      var guide := DrawGuide(keypoints, m);
      var majors := DrawMajors(MajorKeys, keypoints, landmarks, m);
      body := guide + majors;
    }
    var overlay := DrawOverlay(landmarks, m);
    body := body + overlay;
    cmds := [Clear] + body;
  }
}
