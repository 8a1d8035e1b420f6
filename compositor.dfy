/**
 * The geometry of the export in renderAndCopyOrInsert (contentScript.js:242-295):
 * a canvas of the base image's natural size, then, for each overlay in list
 * order, a translate to the overlay's centre, a rotation, a mirror inside the
 * rotated frame and a drawImage centred on the local origin. The result is the
 * list of draws the canvas receives; pixels are not modelled.
 */
module Compositor {
  import opened Wrappers
  import opened Style

  /**
   * What the export reads from one overlay container: whether it holds an
   * image, its offsetLeft/offsetTop/offsetWidth, the image's natural size and
   * its transform string.
   */
  datatype Snapshot = Snapshot(
    hasImage: bool,
    left: real,
    top: real,
    width: real,
    naturalWidth: nat,
    naturalHeight: nat,
    transform: string)

  /**
   * One overlay handed to the canvas: the centre the context is translated to,
   * the rotation, whether the x axis is mirrored, and the drawImage rectangle
   * in that local frame.
   */
  datatype Draw = Draw(
    centerX: real,
    centerY: real,
    angle: real,
    mirrored: bool,
    x: real,
    y: real,
    width: real,
    height: real)

  /** The canvas size and the overlay draws on top of the base image, bottom first. */
  datatype Frame = Frame(width: nat, height: nat, draws: seq<Draw>)

  /**
   * The draw for one overlay (contentScript.js:261-293), or None when the canvas
   * paints nothing: no image (line 262), or a natural width of 0, for which
   * JavaScript's ratio 0 or NaN makes the height Infinity or NaN and the canvas
   * ignores a drawImage with a non-finite argument. The height is the width over
   * the ratio naturalWidth / naturalHeight, written here as width * naturalHeight
   * / naturalWidth (HeightOverRatio): the two agree for a positive natural height,
   * and a natural height of 0 makes the ratio Infinity and the height 0 in both.
   */
  function OverlayDraw(o: Snapshot, scaleX: real, scaleY: real, parseNumber: string -> real): (d: Option<Draw>)
    ensures d.Some? <==> o.hasImage && o.naturalWidth > 0
    ensures d.Some? ==>
              && d.value.width == o.width * scaleX
              && d.value.centerX - d.value.width / 2.0 == o.left * scaleX
              && d.value.centerY - d.value.height / 2.0 == o.top * scaleY
              && d.value.x + d.value.width / 2.0 == 0.0 && d.value.y + d.value.height / 2.0 == 0.0
              && Proportional(d.value, o.naturalWidth, o.naturalHeight)
              && Parsed(d.value.angle, d.value.mirrored) == ParseTransform(o.transform, parseNumber)
  {
    if !o.hasImage || o.naturalWidth == 0 then None
    else
      var left := o.left * scaleX;
      var top := o.top * scaleY;
      var width := o.width * scaleX;
      var height := width * o.naturalHeight as real / o.naturalWidth as real;
      var p := ParseTransform(o.transform, parseNumber);
      Some(Draw(left + width / 2.0, top + height / 2.0, p.angle, p.mirrored, -width / 2.0, -height / 2.0, width, height))
  }

  /** The draw has the proportions of an image of the given natural size. */
  predicate Proportional(d: Draw, naturalWidth: nat, naturalHeight: nat)
  {
    d.height * naturalWidth as real == d.width * naturalHeight as real
  }

  /** The draw height is the scaled width divided by the image's natural ratio. */
  lemma HeightOverRatio(width: real, naturalWidth: nat, naturalHeight: nat)
    requires naturalWidth > 0 && naturalHeight > 0
    ensures width * naturalHeight as real / naturalWidth as real
            == width / (naturalWidth as real / naturalHeight as real)
  {
    var nw, nh := naturalWidth as real, naturalHeight as real;
    var ratio := nw / nh;
    assert ratio * nh == nw;
    assert (width / ratio) * nw == width * nh;
  }

  /** The overlay's draw as a list of zero or one element. */
  function DrawsOf(o: Snapshot, scaleX: real, scaleY: real, parseNumber: string -> real): (r: seq<Draw>)
    ensures |r| <= 1
    ensures r != [] <==> o.hasImage && o.naturalWidth > 0
    ensures r != [] ==> OverlayDraw(o, scaleX, scaleY, parseNumber) == Some(r[0])
  {
    match OverlayDraw(o, scaleX, scaleY, parseNumber)
    case Some(d) => [d]
    case None => []
  }

  /** The draws of the overlay loop, in list order. */
  function Plan(overlays: seq<Snapshot>, scaleX: real, scaleY: real, parseNumber: string -> real): (r: seq<Draw>)
    ensures |r| <= |overlays|
  {
    if overlays == [] then []
    else DrawsOf(overlays[0], scaleX, scaleY, parseNumber) + Plan(overlays[1..], scaleX, scaleY, parseNumber)
  }

  /** One axis's export scale: the base image's natural length over the editing area's. */
  function ExportScale(natural: nat, shown: real): (r: real)
    requires shown != 0.0
    ensures r * shown == natural as real
  {
    natural as real / shown
  }

  /**
   * The export: a canvas of the base image's natural size and the overlay
   * draws scaled by natural size over container size. A container of zero
   * width or height makes the scale non-finite, and no overlay is painted.
   */
  function Render(
    baseWidth: nat, baseHeight: nat, containerWidth: real, containerHeight: real,
    overlays: seq<Snapshot>, parseNumber: string -> real): (r: Frame)
    ensures r.width == baseWidth && r.height == baseHeight
    ensures |r.draws| <= |overlays|
  {
    var draws := if containerWidth > 0.0 && containerHeight > 0.0
                 then Plan(overlays, ExportScale(baseWidth, containerWidth), ExportScale(baseHeight, containerHeight), parseNumber)
                 else [];
    Frame(baseWidth, baseHeight, draws)
  }

  /** The draws of a concatenated list are the draws of its parts in the same order. */
  lemma {:induction false} PlanAppend(a: seq<Snapshot>, b: seq<Snapshot>, scaleX: real, scaleY: real, parseNumber: string -> real)
    ensures Plan(a + b, scaleX, scaleY, parseNumber) == Plan(a, scaleX, scaleY, parseNumber) + Plan(b, scaleX, scaleY, parseNumber)
  {
    if a == [] {
      assert a + b == b;
    } else {
      assert (a + b)[0] == a[0] && (a + b)[1..] == a[1..] + b;
      PlanAppend(a[1..], b, scaleX, scaleY, parseNumber);
    }
  }

  /** When every overlay can be painted, the i-th draw is the i-th overlay's: list order is paint order. */
  lemma {:induction false} PlanInOrder(overlays: seq<Snapshot>, scaleX: real, scaleY: real, parseNumber: string -> real)
    requires forall i | 0 <= i < |overlays| :: overlays[i].hasImage && overlays[i].naturalWidth > 0
    ensures var r := Plan(overlays, scaleX, scaleY, parseNumber);
            && |r| == |overlays|
            && forall i | 0 <= i < |r| :: Some(r[i]) == OverlayDraw(overlays[i], scaleX, scaleY, parseNumber)
  {
    if overlays != [] {
      PlanInOrder(overlays[1..], scaleX, scaleY, parseNumber);
    }
  }

  /** An overlay without an image contributes nothing and does not disturb the others. */
  lemma {:induction false} ImagelessSkipped(
    a: seq<Snapshot>, o: Snapshot, b: seq<Snapshot>, scaleX: real, scaleY: real, parseNumber: string -> real)
    requires !o.hasImage
    ensures Plan(a + [o] + b, scaleX, scaleY, parseNumber) == Plan(a + b, scaleX, scaleY, parseNumber)
  {
    PlanSingle(o, scaleX, scaleY, parseNumber);
    assert OverlayDraw(o, scaleX, scaleY, parseNumber).None?;
    var pa, po, pb := Plan(a, scaleX, scaleY, parseNumber), Plan([o], scaleX, scaleY, parseNumber), Plan(b, scaleX, scaleY, parseNumber);
    assert po == [];
    PlanAppend(a + [o], b, scaleX, scaleY, parseNumber);
    PlanAppend(a, [o], scaleX, scaleY, parseNumber);
    PlanAppend(a, b, scaleX, scaleY, parseNumber);
    assert Plan(a + [o], scaleX, scaleY, parseNumber) == pa + po == pa;
  }

  /** A one-element list is planned as that overlay's draws. */
  lemma PlanSingle(o: Snapshot, scaleX: real, scaleY: real, parseNumber: string -> real)
    ensures Plan([o], scaleX, scaleY, parseNumber) == DrawsOf(o, scaleX, scaleY, parseNumber)
  {
    assert [o][1..] == [];
  }

  /**
   * An overlay at (50, 50), 100 wide with a square image, in a 500 by 400
   * container over a 1000 by 800 image: both scales are 2, so it is drawn as a
   * 200 by 200 square whose top-left corner is (100, 100) and whose centre is
   * (200, 200).
   */
  lemma ScaledSquare(parseNumber: string -> real)
    ensures Render(1000, 800, 500.0, 400.0, [Snapshot(true, 50.0, 50.0, 100.0, 64, 64, "")], parseNumber).draws
            == [Draw(200.0, 200.0, 0.0, false, -100.0, -100.0, 200.0, 200.0)]
  {
    var o := Snapshot(true, 50.0, 50.0, 100.0, 64, 64, "");
    assert [o][1..] == [];
    assert 1000 as real / 500.0 == 2.0 && 800 as real / 400.0 == 2.0;
    assert 200.0 / (64 as real / 64 as real) == 200.0;
  }

  /**
   * Where a point (u, v) of the overlay image's local frame lands on the
   * canvas, given the cosine and sine of the angle: the context is translated
   * to the centre, rotated, then mirrored (contentScript.js:287-291).
   */
  function ToCanvas(d: Draw, cos: real, sin: real, u: real, v: real): (p: (real, real))
    ensures u == 0.0 && v == 0.0 ==> p.0 == d.centerX && p.1 == d.centerY
  {
    var mu := if d.mirrored then -u else u;
    (d.centerX + cos * mu - sin * v, d.centerY + sin * mu + cos * v)
  }

  /**
   * Signed distance of the canvas point p from the draw's centre, measured
   * along the draw's rotated horizontal axis (cos, sin).
   */
  function Along(d: Draw, p: (real, real), cos: real, sin: real): real
  {
    (p.0 - d.centerX) * cos + (p.1 - d.centerY) * sin
  }

  /**
   * The mirror is applied in the overlay's rotated frame (contentScript.js:287-291):
   * for a proper rotation, the point a mirrored draw paints is the unmirrored
   * point reflected across the overlay's rotated vertical axis through its
   * centre, and its distance from that axis is the local coordinate u.
   */
  lemma MirrorIsAxisReflection(d: Draw, cos: real, sin: real, u: real, v: real)
    requires cos * cos + sin * sin == 1.0
    ensures Along(d, ToCanvas(d.(mirrored := false), cos, sin, u, v), cos, sin) == u
    ensures ToCanvas(d.(mirrored := true), cos, sin, u, v).0
            == ToCanvas(d.(mirrored := false), cos, sin, u, v).0
               - 2.0 * Along(d, ToCanvas(d.(mirrored := false), cos, sin, u, v), cos, sin) * cos
    ensures ToCanvas(d.(mirrored := true), cos, sin, u, v).1
            == ToCanvas(d.(mirrored := false), cos, sin, u, v).1
               - 2.0 * Along(d, ToCanvas(d.(mirrored := false), cos, sin, u, v), cos, sin) * sin
  {
    var p := ToCanvas(d.(mirrored := false), cos, sin, u, v);
    var m := ToCanvas(d.(mirrored := true), cos, sin, u, v);
    assert p.0 - d.centerX == cos * u - sin * v && p.1 - d.centerY == sin * u + cos * v;
    assert Along(d, p, cos, sin) == (cos * u - sin * v) * cos + (sin * u + cos * v) * sin;
    assert Along(d, p, cos, sin) == u * (cos * cos + sin * sin);
    assert m.0 == d.centerX - cos * u - sin * v && m.1 == d.centerY - sin * u + cos * v;
  }

  /**
   * It is not a mirror of the canvas about the centre's vertical line: at a
   * quarter turn the local point (1, 0) of a mirrored draw lands above the
   * centre, while the canvas mirror of the unmirrored draw lands below it.
   */
  lemma MirrorIsNotCanvasMirror(d: Draw)
    requires !d.mirrored
    ensures var m := ToCanvas(d.(mirrored := true), 0.0, 1.0, 1.0, 0.0);
            var p := ToCanvas(d, 0.0, 1.0, 1.0, 0.0);
            m != (2.0 * d.centerX - p.0, p.1)
  {
  }
}
