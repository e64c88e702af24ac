/** Coordinate mapping: normalized landmark coordinates, with (0,0) the top-left
    and (1,1) the bottom-right corner of the video, become canvas pixels when the
    video is shown with `object-fit: contain` (scaled uniformly to fit and
    centred, leaving letterbox bars on one axis). */
module Mapping {

  /** A point in normalized video coordinates. */
  datatype Point = Point(x: real, y: real)

  /** A point in canvas pixels; NaNPixel stands for the IEEE NaN coordinates the
      mapping produces when its scale is 0/0. */
  datatype Pixel = Px(x: real, y: real) | NaNPixel

  /** What createMappers derives once per frame: the effective video size, the
      uniform scale and the centring offsets. NaNScale is the case where an
      effective video dimension is 0, so that the scale is 0/0. */
  datatype Mappers =
    | Letterbox(videoW: real, videoH: real, scale: real, offsetX: real, offsetY: real)
    | NaNScale

  function Min(a: real, b: real): real
  {
    if a <= b then a else b
  }

  /** `intrinsic || canvas`: an intrinsic size of 0 (metadata not loaded yet)
      falls back to the canvas size. */
  function EffectiveSize(intrinsic: nat, canvas: nat): nat
  {
    if intrinsic == 0 then canvas else intrinsic
  }

  /** createMappers for a video of intrinsic size intrinsicW x intrinsicH on a
      canvas of canvasW x canvasH pixels. */
  function CreateMappers(intrinsicW: nat, intrinsicH: nat, canvasW: nat, canvasH: nat): (m: Mappers)
    ensures m.NaNScale? <==> (intrinsicW == 0 && canvasW == 0) || (intrinsicH == 0 && canvasH == 0)
    ensures m.Letterbox? ==> m.videoW > 0.0 && m.videoH > 0.0 && m.scale >= 0.0
  {
    var videoW := EffectiveSize(intrinsicW, canvasW) as real;
    var videoH := EffectiveSize(intrinsicH, canvasH) as real;
    if videoW == 0.0 || videoH == 0.0 then NaNScale
    else
      var scale := Min(canvasW as real / videoW, canvasH as real / videoH);
      Letterbox(videoW, videoH, scale,
                (canvasW as real - videoW * scale) / 2.0,
                (canvasH as real - videoH * scale) / 2.0)
  }

  /** mapDetected: scale the normalized point into the visible video rectangle. */
  function MapDetected(m: Mappers, normX: real, normY: real): Pixel
  {
    match m
    case NaNScale => NaNPixel
    case Letterbox(videoW, videoH, scale, offsetX, offsetY) =>
      Px(normX * videoW * scale + offsetX, normY * videoH * scale + offsetY)
  }

  /** mapGuide: like mapDetected, but with x replaced by 1 - x when mirroring. */
  function MapGuide(m: Mappers, normX: real, normY: real, mirror: bool): Pixel
  {
    MapDetected(m, if mirror then 1.0 - normX else normX, normY)
  }

  // ---------------------------------------------------------------------------
  // Properties of the mapping context

  /** The letterboxed video size is, on each axis, the intrinsic size when it
      is known and the canvas size when it is 0. */
  lemma EffectiveVideoSize(intrinsicW: nat, intrinsicH: nat, canvasW: nat, canvasH: nat)
    requires CreateMappers(intrinsicW, intrinsicH, canvasW, canvasH).Letterbox?
    ensures var m := CreateMappers(intrinsicW, intrinsicH, canvasW, canvasH);
            && m.videoW == (if intrinsicW > 0 then intrinsicW else canvasW) as real
            && m.videoH == (if intrinsicH > 0 then intrinsicH else canvasH) as real
  {
  }

  /** When the video has no intrinsic size yet, it is taken to be the canvas:
      the scale is 1 and there are no letterbox bars. */
  lemma FallbackToCanvas(canvasW: nat, canvasH: nat)
    requires canvasW > 0 && canvasH > 0
    ensures CreateMappers(0, 0, canvasW, canvasH)
            == Letterbox(canvasW as real, canvasH as real, 1.0, 0.0, 0.0)
  {
    assert canvasW as real / canvasW as real == 1.0;
    assert canvasH as real / canvasH as real == 1.0;
  }

  /** The scale is the smaller of the two axis ratios: the scaled video fits the
      canvas on both axes and fills it on at least one. */
  lemma ScaleIsContain(intrinsicW: nat, intrinsicH: nat, canvasW: nat, canvasH: nat)
    requires CreateMappers(intrinsicW, intrinsicH, canvasW, canvasH).Letterbox?
    ensures var m := CreateMappers(intrinsicW, intrinsicH, canvasW, canvasH);
            && m.videoW * m.scale <= canvasW as real
            && m.videoH * m.scale <= canvasH as real
            && (m.videoW * m.scale == canvasW as real || m.videoH * m.scale == canvasH as real)
  {
    var m := CreateMappers(intrinsicW, intrinsicH, canvasW, canvasH);
    var rw, rh := canvasW as real / m.videoW, canvasH as real / m.videoH;
    assert m.videoW * rw == canvasW as real;
    assert m.videoH * rh == canvasH as real;
    if rw <= rh {
      assert m.scale == rw;
      MulMonotone(m.videoH, rw, rh);
    } else {
      assert m.scale == rh;
      MulMonotone(m.videoW, rh, rw);
    }
  }

  lemma MulMonotone(k: real, a: real, b: real)
    requires k >= 0.0 && a <= b
    ensures k * a <= k * b
  {
  }

  /** The letterbox bars are never negative, and at least one of them is empty. */
  lemma OffsetsCentre(intrinsicW: nat, intrinsicH: nat, canvasW: nat, canvasH: nat)
    requires CreateMappers(intrinsicW, intrinsicH, canvasW, canvasH).Letterbox?
    ensures var m := CreateMappers(intrinsicW, intrinsicH, canvasW, canvasH);
            && m.offsetX >= 0.0 && m.offsetY >= 0.0
            && (m.offsetX == 0.0 || m.offsetY == 0.0)
            && 2.0 * m.offsetX + m.videoW * m.scale == canvasW as real
            && 2.0 * m.offsetY + m.videoH * m.scale == canvasH as real
  {
    ScaleIsContain(intrinsicW, intrinsicH, canvasW, canvasH);
  }

  /** Letterbox bars appear on the axis along which the video is relatively
      shorter than the canvas: top and bottom for a video wider than the
      canvas, left and right for a narrower one, and none when the aspect
      ratios agree. */
  lemma BarsOnShorterAxis(intrinsicW: nat, intrinsicH: nat, canvasW: nat, canvasH: nat)
    requires CreateMappers(intrinsicW, intrinsicH, canvasW, canvasH).Letterbox?
    ensures var m := CreateMappers(intrinsicW, intrinsicH, canvasW, canvasH);
            var w, h := EffectiveSize(intrinsicW, canvasW), EffectiveSize(intrinsicH, canvasH);
            && (m.offsetY > 0.0 <==> canvasW * h < canvasH * w)
            && (m.offsetX > 0.0 <==> canvasH * w < canvasW * h)
  {
    var m := CreateMappers(intrinsicW, intrinsicH, canvasW, canvasH);
    var w, h := EffectiveSize(intrinsicW, canvasW), EffectiveSize(intrinsicH, canvasH);
    var cw, ch := canvasW as real, canvasH as real;
    assert (canvasW * h) as real == cw * m.videoH;
    assert (canvasH * w) as real == ch * m.videoW;
    ShorterAxis(m.videoW, m.videoH, cw, ch);
    ShorterAxis(m.videoH, m.videoW, ch, cw);
    assert Min(ch / m.videoH, cw / m.videoW) == m.scale;
  }

  /** One axis of the contain fit: the scaled height falls short of the canvas
      height exactly when the canvas is relatively wider than the video. */
  lemma ShorterAxis(w: real, h: real, cw: real, ch: real)
    requires w > 0.0 && h > 0.0 && cw >= 0.0 && ch >= 0.0
    ensures h * Min(cw / w, ch / h) < ch <==> cw * h < ch * w
  {
    var rw, rh := cw / w, ch / h;
    assert w * rw == cw;
    assert h * rh == ch;
    if rw <= rh {
      StrictMul(w, h * rw, ch);
      assert w * (h * rw) == h * cw;
    } else {
      StrictMul(w * h, rh, rw);
      assert (w * h) * rh == w * ch;
      assert (w * h) * rw == h * cw;
    }
  }

  /** The scale is positive exactly when the canvas has a positive area. */
  lemma ScalePositive(intrinsicW: nat, intrinsicH: nat, canvasW: nat, canvasH: nat)
    requires CreateMappers(intrinsicW, intrinsicH, canvasW, canvasH).Letterbox?
    ensures CreateMappers(intrinsicW, intrinsicH, canvasW, canvasH).scale > 0.0
            <==> canvasW > 0 && canvasH > 0
  {
    var m := CreateMappers(intrinsicW, intrinsicH, canvasW, canvasH);
    var rw, rh := canvasW as real / m.videoW, canvasH as real / m.videoH;
    assert canvasW > 0 <==> rw > 0.0;
    assert canvasH > 0 <==> rh > 0.0;
  }

  // ---------------------------------------------------------------------------
  // Properties of mapDetected and mapGuide

  /** Normalized points in [0,1]^2 land on the canvas. */
  lemma MapDetectedInCanvas(intrinsicW: nat, intrinsicH: nat, canvasW: nat, canvasH: nat, p: Point)
    requires canvasW > 0 && canvasH > 0
    requires 0.0 <= p.x <= 1.0 && 0.0 <= p.y <= 1.0
    ensures var q := MapDetected(CreateMappers(intrinsicW, intrinsicH, canvasW, canvasH), p.x, p.y);
            q.Px? && 0.0 <= q.x <= canvasW as real && 0.0 <= q.y <= canvasH as real
  {
    var m := CreateMappers(intrinsicW, intrinsicH, canvasW, canvasH);
    OffsetsCentre(intrinsicW, intrinsicH, canvasW, canvasH);
    AxisInRange(p.x, m.videoW, m.scale, m.offsetX, canvasW as real);
    AxisInRange(p.y, m.videoH, m.scale, m.offsetY, canvasH as real);
  }

  /** One axis of the mapping: t in [0,1] lands between the bar and the far edge. */
  lemma AxisInRange(t: real, size: real, scale: real, offset: real, canvas: real)
    requires 0.0 <= t <= 1.0 && size >= 0.0 && scale >= 0.0 && offset >= 0.0
    requires 2.0 * offset + size * scale == canvas
    ensures 0.0 <= t * size * scale + offset <= canvas
  {
    var s := size * scale;
    assert t * size * scale == s * t;
    assert s >= 0.0;
    MulMonotone(s, t, 1.0);
    MulMonotone(s, 0.0, t);
    assert 0.0 <= s * t <= s;
    assert s * t + offset <= canvas;
  }

  /** The mirrored guide lands on the canvas too. */
  lemma MapGuideInCanvas(intrinsicW: nat, intrinsicH: nat, canvasW: nat, canvasH: nat, p: Point, mirror: bool)
    requires canvasW > 0 && canvasH > 0
    requires 0.0 <= p.x <= 1.0 && 0.0 <= p.y <= 1.0
    ensures var q := MapGuide(CreateMappers(intrinsicW, intrinsicH, canvasW, canvasH), p.x, p.y, mirror);
            q.Px? && 0.0 <= q.x <= canvasW as real && 0.0 <= q.y <= canvasH as real
  {
    MapDetectedInCanvas(intrinsicW, intrinsicH, canvasW, canvasH,
                        Point(if mirror then 1.0 - p.x else p.x, p.y));
  }

  /** The video's corners map to the corners of the visible video rectangle:
      (0,0) to the offsets, (1,1) to the canvas size minus the offsets. */
  lemma CornersAtLetterbox(intrinsicW: nat, intrinsicH: nat, canvasW: nat, canvasH: nat)
    requires CreateMappers(intrinsicW, intrinsicH, canvasW, canvasH).Letterbox?
    ensures var m := CreateMappers(intrinsicW, intrinsicH, canvasW, canvasH);
            && MapDetected(m, 0.0, 0.0) == Px(m.offsetX, m.offsetY)
            && MapDetected(m, 1.0, 1.0) == Px(canvasW as real - m.offsetX, canvasH as real - m.offsetY)
  {
    OffsetsCentre(intrinsicW, intrinsicH, canvasW, canvasH);
  }

  /** The middle of the video is the middle of the canvas, whatever the two
      aspect ratios are. */
  lemma CentreToCentre(intrinsicW: nat, intrinsicH: nat, canvasW: nat, canvasH: nat)
    requires CreateMappers(intrinsicW, intrinsicH, canvasW, canvasH).Letterbox?
    ensures MapDetected(CreateMappers(intrinsicW, intrinsicH, canvasW, canvasH), 0.5, 0.5)
            == Px(canvasW as real / 2.0, canvasH as real / 2.0)
  {
    OffsetsCentre(intrinsicW, intrinsicH, canvasW, canvasH);
  }

  /** With equal aspect ratios there are no bars at all, and the centre still maps
      to the centre. */
  lemma SameAspectNoBars(intrinsicW: nat, intrinsicH: nat, canvasW: nat, canvasH: nat)
    requires intrinsicW > 0 && intrinsicH > 0
    requires intrinsicW * canvasH == intrinsicH * canvasW
    ensures var m := CreateMappers(intrinsicW, intrinsicH, canvasW, canvasH);
            && m.Letterbox? && m.offsetX == 0.0 && m.offsetY == 0.0
            && MapDetected(m, 0.5, 0.5) == Px(canvasW as real / 2.0, canvasH as real / 2.0)
  {
    var m := CreateMappers(intrinsicW, intrinsicH, canvasW, canvasH);
    var w, h := intrinsicW as real, intrinsicH as real;
    var cw, ch := canvasW as real, canvasH as real;
    assert w * ch == h * cw by {
      assert (intrinsicW * canvasH) as real == w * ch;
      assert (intrinsicH * canvasW) as real == h * cw;
    }
    assert cw / w == ch / h by {
      assert cw / w == (cw * h) / (w * h);
      assert ch / h == (ch * w) / (w * h);
    }
    assert m.scale == cw / w;
    assert w * m.scale == cw;
    assert h * m.scale == ch by {
      assert h * (ch / h) == ch;
    }
    CentreToCentre(intrinsicW, intrinsicH, canvasW, canvasH);
  }

  /** The 1920x1080 video on a 640x640 canvas: scale 1/3, bars of 140 pixels at
      the top and bottom. */
  lemma WideVideoOnSquareCanvas()
    ensures var m := CreateMappers(1920, 1080, 640, 640);
            && m == Letterbox(1920.0, 1080.0, 1.0 / 3.0, 0.0, 140.0)
            && MapDetected(m, 0.0, 0.0) == Px(0.0, 140.0)
            && MapDetected(m, 1.0, 1.0) == Px(640.0, 500.0)
  {
  }

  /** mapGuide without mirroring is mapDetected; with mirroring it is mapDetected
      of 1 - x, so mirroring an already mirrored x gives mapDetected back. */
  lemma MirrorLaws(m: Mappers, x: real, y: real)
    ensures MapGuide(m, x, y, false) == MapDetected(m, x, y)
    ensures MapGuide(m, x, y, true) == MapDetected(m, 1.0 - x, y)
    ensures MapGuide(m, 1.0 - x, y, true) == MapDetected(m, x, y)
  {
  }

  /** Mirroring reflects a pixel about the vertical centre line of the canvas and
      leaves y alone. */
  lemma MirrorReflectsAboutCentre(intrinsicW: nat, intrinsicH: nat, canvasW: nat, canvasH: nat, x: real, y: real)
    requires CreateMappers(intrinsicW, intrinsicH, canvasW, canvasH).Letterbox?
    ensures var m := CreateMappers(intrinsicW, intrinsicH, canvasW, canvasH);
            && MapGuide(m, x, y, true).x == canvasW as real - MapDetected(m, x, y).x
            && MapGuide(m, x, y, true).y == MapDetected(m, x, y).y
  {
    var m := CreateMappers(intrinsicW, intrinsicH, canvasW, canvasH);
    OffsetsCentre(intrinsicW, intrinsicH, canvasW, canvasH);
    var s := m.videoW * m.scale;
    assert (1.0 - x) * m.videoW * m.scale == s - x * s;
    assert x * m.videoW * m.scale == x * s;
  }

  /** On a canvas of positive area, mapDetected is strictly increasing in each
      coordinate. */
  lemma MapDetectedIncreasing(intrinsicW: nat, intrinsicH: nat, canvasW: nat, canvasH: nat, p: Point, q: Point)
    requires canvasW > 0 && canvasH > 0
    ensures var m := CreateMappers(intrinsicW, intrinsicH, canvasW, canvasH);
            && (p.x < q.x <==> MapDetected(m, p.x, p.y).x < MapDetected(m, q.x, q.y).x)
            && (p.y < q.y <==> MapDetected(m, p.x, p.y).y < MapDetected(m, q.x, q.y).y)
  {
    var m := CreateMappers(intrinsicW, intrinsicH, canvasW, canvasH);
    ScalePositive(intrinsicW, intrinsicH, canvasW, canvasH);
    LetterboxIncreasing(m, p, q);
  }

  lemma LetterboxIncreasing(m: Mappers, p: Point, q: Point)
    requires m.Letterbox? && m.videoW > 0.0 && m.videoH > 0.0 && m.scale > 0.0
    ensures p.x < q.x <==> MapDetected(m, p.x, p.y).x < MapDetected(m, q.x, q.y).x
    ensures p.y < q.y <==> MapDetected(m, p.x, p.y).y < MapDetected(m, q.x, q.y).y
  {
    var a, b := MapDetected(m, p.x, p.y), MapDetected(m, q.x, q.y);
    assert a == Px(p.x * m.videoW * m.scale + m.offsetX, p.y * m.videoH * m.scale + m.offsetY);
    assert b == Px(q.x * m.videoW * m.scale + m.offsetX, q.y * m.videoH * m.scale + m.offsetY);
    AxisIncreasing(m.videoW, m.scale, m.offsetX, p.x, q.x);
    AxisIncreasing(m.videoH, m.scale, m.offsetY, p.y, q.y);
  }

  /** One axis of the mapping is strictly increasing when the scale is positive. */
  lemma AxisIncreasing(size: real, scale: real, offset: real, a: real, b: real)
    requires size > 0.0 && scale > 0.0
    ensures a < b <==> a * size * scale + offset < b * size * scale + offset
  {
    var s := size * scale;
    assert s > 0.0;
    assert a * size * scale == s * a;
    assert b * size * scale == s * b;
    StrictMul(s, a, b);
  }

  lemma StrictMul(k: real, a: real, b: real)
    requires k > 0.0
    ensures a < b <==> k * a < k * b
  {
    if a < b {
      assert k * b - k * a == k * (b - a);
    } else {
      assert k * a - k * b == k * (a - b);
    }
  }

  /** The mirrored guide is drawn at a different x than the detected landmark
      with the same coordinates exactly when x is not the middle 0.5. */
  lemma MirrorMovesOffCentre(intrinsicW: nat, intrinsicH: nat, canvasW: nat, canvasH: nat, x: real, y: real)
    requires canvasW > 0 && canvasH > 0
    ensures var m := CreateMappers(intrinsicW, intrinsicH, canvasW, canvasH);
            MapGuide(m, x, y, true).x != MapDetected(m, x, y).x <==> x != 0.5
  {
    var a, b := Point(1.0 - x, y), Point(x, y);
    MapDetectedIncreasing(intrinsicW, intrinsicH, canvasW, canvasH, a, b);
    MapDetectedIncreasing(intrinsicW, intrinsicH, canvasW, canvasH, b, a);
  }
}
