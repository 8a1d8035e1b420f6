/**
 * One editing session (showNomnomEditor, addNewNomNomOverlay, the remove
 * handler and renderAndCopyOrInsert): the base image's natural size, the
 * editing area's size, the overlay list, and the single pair of document-level
 * mouse handlers, which belongs to the overlay whose handle or body was
 * pressed last. The clipboard, the upload into the host page and the DOM
 * construction are not part of this model.
 */
module EditorSession {
  import opened Geometry
  import opened Style
  import opened Controller
  import opened Collection
  import opened Compositor

  /** What the export reads from an overlay of the editor: it always holds its image (contentScript.js:468). */
  function SnapshotOf(s: OverlayState, render: real -> string): (o: Snapshot)
  {
    var transform := if s.styled then FormatTransform(render(s.angle), s.flipped) else "";
    Snapshot(true, s.box.left, s.box.top, s.box.width, s.naturalWidth, s.naturalHeight, transform)
  }

  /**
   * The snapshot holds the image, the overlay's corner, width and natural size,
   * and a transform string exactly when the overlay has been styled.
   */
  lemma SnapshotOfReadsOverlay(s: OverlayState, render: real -> string)
    ensures var o := SnapshotOf(s, render);
      && o.hasImage && o.left == s.box.left && o.top == s.box.top && o.width == s.box.width
      && o.naturalWidth == s.naturalWidth && o.naturalHeight == s.naturalHeight
      && (o.transform == [] <==> !s.styled)
  {
  }

  /**
   * The export paints an overlay as the controller left it: same mirror flag,
   * width scaled by the horizontal scale, the height that width gives under the
   * overlay's aspect ratio, and the angle read back from its transform string.
   */
  lemma ExportMatchesOverlay(s: OverlayState, render: real -> string, scaleX: real, scaleY: real, parseNumber: string -> real)
    requires Invariant(s) && s.naturalWidth > 0 && s.naturalHeight > 0
    requires IsNumberText(render(s.angle))
    ensures var d := OverlayDraw(SnapshotOf(s, render), scaleX, scaleY, parseNumber);
            && d.Some?
            && d.value.mirrored == s.flipped
            && d.value.width == s.box.width * scaleX
            && d.value.height * s.aspect == d.value.width
            && (!s.styled ==> d.value.angle == s.angle)
            && (s.styled && IsDecimalText(render(s.angle)) ==> d.value.angle == parseNumber(render(s.angle)))
  {
    DrawReadsTransform(s, render, scaleX, scaleY, parseNumber);
    DrawKeepsRatio(s, render, scaleX, scaleY, parseNumber);
  }

  /** The draw's mirror flag and angle are what the overlay's transform string says. */
  lemma DrawReadsTransform(s: OverlayState, render: real -> string, scaleX: real, scaleY: real, parseNumber: string -> real)
    requires Invariant(s) && s.naturalWidth > 0
    requires IsNumberText(render(s.angle))
    ensures var d := OverlayDraw(SnapshotOf(s, render), scaleX, scaleY, parseNumber);
            && d.Some?
            && d.value.mirrored == s.flipped
            && (!s.styled ==> d.value.angle == s.angle)
            && (s.styled && IsDecimalText(render(s.angle)) ==> d.value.angle == parseNumber(render(s.angle)))
  {
    var o := SnapshotOf(s, render);
    TransformRoundTrip(s, render, parseNumber);
    var d := OverlayDraw(o, scaleX, scaleY, parseNumber).value;
    assert Parsed(d.angle, d.mirrored) == ParseTransform(o.transform, parseNumber);
  }

  /** The draw's width is the overlay's times the horizontal scale, and its height keeps the overlay's ratio. */
  lemma DrawKeepsRatio(s: OverlayState, render: real -> string, scaleX: real, scaleY: real, parseNumber: string -> real)
    requires s.naturalWidth > 0 && s.naturalHeight > 0
    requires s.aspect * s.naturalHeight as real == s.naturalWidth as real
    ensures var d := OverlayDraw(SnapshotOf(s, render), scaleX, scaleY, parseNumber);
            && d.Some?
            && d.value.width == s.box.width * scaleX
            && d.value.height * s.aspect == d.value.width
  {
    DrawSize(s, render, scaleX, scaleY, parseNumber);
    var d := OverlayDraw(SnapshotOf(s, render), scaleX, scaleY, parseNumber).value;
    HeightFromAspect(d, s.aspect, s.naturalWidth, s.naturalHeight);
  }

  /**
   * Proof helper: a loaded overlay's draw is its width times the horizontal
   * scale, with the image's natural proportions, stated as lemma facts.
   */
  lemma DrawSize(s: OverlayState, render: real -> string, scaleX: real, scaleY: real, parseNumber: string -> real)
    requires s.naturalWidth > 0
    ensures var d := OverlayDraw(SnapshotOf(s, render), scaleX, scaleY, parseNumber);
            && d.Some?
            && d.value.width == s.box.width * scaleX
            && Proportional(d.value, s.naturalWidth, s.naturalHeight)
  {
    var o := SnapshotOf(s, render);
    assert o.hasImage && o.width == s.box.width;
    assert o.naturalWidth == s.naturalWidth && o.naturalHeight == s.naturalHeight;
  }

  /** The transform string the controller writes is read back by the export as the same flip flag and angle. */
  lemma TransformRoundTrip(s: OverlayState, render: real -> string, parseNumber: string -> real)
    requires Invariant(s) && IsNumberText(render(s.angle))
    ensures var p := ParseTransform(SnapshotOf(s, render).transform, parseNumber);
            && p.mirrored == s.flipped
            && (!s.styled ==> p.angle == s.angle)
            && (s.styled && IsDecimalText(render(s.angle)) ==> p.angle == parseNumber(render(s.angle)))
  {
    var text := render(s.angle);
    if s.styled {
      var t := FormatTransform(text, s.flipped);
      assert t[0] == 'r';
      MirrorRoundTrip(text, s.flipped);
      if IsDecimalText(text) {
        ParseFormatted(text, s.flipped, parseNumber);
      }
    }
  }

  /** Proof helper: a draw with the image's proportions has height times ratio equal to width. */
  lemma HeightFromAspect(d: Draw, aspect: real, naturalWidth: nat, naturalHeight: nat)
    requires naturalHeight > 0 && Proportional(d, naturalWidth, naturalHeight)
    requires aspect * naturalHeight as real == naturalWidth as real
    ensures d.height * aspect == d.width
  {
    var nh := naturalHeight as real;
    assert (d.height * aspect) * nh == d.height * (aspect * nh);
    assert (d.height * aspect) * nh == d.width * nh;
  }

  /** The fit-to-500 container has the image's proportions, so the export scales both axes alike. */
  lemma FitScalesUniformly(naturalWidth: nat, naturalHeight: nat, current: Size)
    requires naturalWidth > 0 && naturalHeight > 0
    ensures var c := FitContainer(naturalWidth, naturalHeight, current);
            ExportScale(naturalWidth, c.width) == ExportScale(naturalHeight, c.height)
  {
    var c := FitContainer(naturalWidth, naturalHeight, current);
    var nw, nh := naturalWidth as real, naturalHeight as real;
    assert c.width * nh == c.height * nw;
    calc {
      nw / c.width;
      (nw * c.height) / (c.width * c.height);
      (c.width * nh) / (c.width * c.height);
      nh / c.height;
    }
  }

  /** The draw covers box b scaled by k: its top-left corner, width and height are the box's times k. */
  predicate CoversScaled(d: Draw, b: Box, k: real)
  {
    && d.centerX - d.width / 2.0 == b.left * k
    && d.centerY - d.height / 2.0 == b.top * k
    && d.width == b.width * k
    && d.height == b.height * k
  }

  /**
   * An overlay is exported as its editor box scaled by one factor k, mirrored
   * exactly when it is flipped, whenever the editing area has the base image's
   * proportions (FitScalesUniformly: as the base image's onload sizes it).
   */
  lemma ExportIsUniformScaling(
    s: OverlayState, baseWidth: nat, baseHeight: nat, container: Size,
    render: real -> string, parseNumber: string -> real)
    requires Invariant(s) && s.naturalWidth > 0 && s.naturalHeight > 0
    requires IsNumberText(render(s.angle))
    requires container.width > 0.0 && container.height > 0.0
    requires ExportScale(baseWidth, container.width) == ExportScale(baseHeight, container.height)
    ensures var k := ExportScale(baseWidth, container.width);
            var draws := Render(baseWidth, baseHeight, container.width, container.height, [SnapshotOf(s, render)], parseNumber).draws;
            && |draws| == 1
            && CoversScaled(draws[0], s.box, k)
            && draws[0].mirrored == s.flipped
  {
    var k := ExportScale(baseWidth, container.width);
    var o := SnapshotOf(s, render);
    RenderOne(baseWidth, baseHeight, container, o, parseNumber);
    DrawScaled(s, render, k, parseNumber);
    assert DrawsOf(o, k, k, parseNumber) == [OverlayDraw(o, k, k, parseNumber).value];
  }

  /** With equal scales, a one-overlay export is that overlay's draws at that scale. */
  lemma RenderOne(baseWidth: nat, baseHeight: nat, container: Size, o: Snapshot, parseNumber: string -> real)
    requires container.width > 0.0 && container.height > 0.0
    requires ExportScale(baseWidth, container.width) == ExportScale(baseHeight, container.height)
    ensures var k := ExportScale(baseWidth, container.width);
            Render(baseWidth, baseHeight, container.width, container.height, [o], parseNumber).draws
            == DrawsOf(o, k, k, parseNumber)
  {
    var k := ExportScale(baseWidth, container.width);
    PlanSingle(o, k, k, parseNumber);
  }

  /** A loaded overlay's draw at one scale k is its editor box times k. */
  lemma DrawScaled(s: OverlayState, render: real -> string, k: real, parseNumber: string -> real)
    requires Invariant(s) && s.naturalWidth > 0 && s.naturalHeight > 0
    requires IsNumberText(render(s.angle))
    ensures var d := OverlayDraw(SnapshotOf(s, render), k, k, parseNumber);
            && d.Some?
            && CoversScaled(d.value, s.box, k)
            && d.value.mirrored == s.flipped
  {
    ExportMatchesOverlay(s, render, k, k, parseNumber);
    DrawPlaced(s, render, k, k, parseNumber);
    DrawHeightScaled(s, render, k, k, parseNumber);
  }

  /** The draw's height is the overlay's editor height times the horizontal scale. */
  lemma DrawHeightScaled(s: OverlayState, render: real -> string, scaleX: real, scaleY: real, parseNumber: string -> real)
    requires s.naturalWidth > 0 && s.naturalHeight > 0
    requires s.aspect * s.naturalHeight as real == s.naturalWidth as real
    requires s.box.height * s.aspect == s.box.width
    ensures var d := OverlayDraw(SnapshotOf(s, render), scaleX, scaleY, parseNumber);
            d.Some? && d.value.height == s.box.height * scaleX
  {
    DrawSize(s, render, scaleX, scaleY, parseNumber);
    var d := OverlayDraw(SnapshotOf(s, render), scaleX, scaleY, parseNumber).value;
    HeightTimesScale(d, s.box.height, s.box.width, s.aspect, s.naturalWidth, s.naturalHeight, scaleX);
  }

  /** Proof helper: a ratio-locked box of width w drawn w * k wide is drawn height * k high. */
  lemma HeightTimesScale(d: Draw, height: real, width: real, aspect: real, naturalWidth: nat, naturalHeight: nat, k: real)
    requires aspect > 0.0 && naturalHeight > 0 && Proportional(d, naturalWidth, naturalHeight)
    requires aspect * naturalHeight as real == naturalWidth as real
    requires d.width == width * k && height * aspect == width
    ensures d.height == height * k
  {
    HeightFromAspect(d, aspect, naturalWidth, naturalHeight);
    assert d.height * aspect == (height * k) * aspect;
  }

  /** The draw's top-left corner is the overlay's editor position times the scales. */
  lemma DrawPlaced(s: OverlayState, render: real -> string, scaleX: real, scaleY: real, parseNumber: string -> real)
    requires s.naturalWidth > 0
    ensures var d := OverlayDraw(SnapshotOf(s, render), scaleX, scaleY, parseNumber);
            && d.Some?
            && d.value.centerX - d.value.width / 2.0 == s.box.left * scaleX
            && d.value.centerY - d.value.height / 2.0 == s.box.top * scaleY
  {
    var o := SnapshotOf(s, render);
    assert o.hasImage && o.naturalWidth == s.naturalWidth;
    assert o.left == s.box.left && o.top == s.box.top;
  }

  /** The overlay loop of the export (contentScript.js:259-294): each paintable overlay's draw, in list order. */
  method PaintOverlays(all: seq<Snapshot>, scaleX: real, scaleY: real, parseNumber: string -> real) returns (draws: seq<Draw>)
    ensures draws == Plan(all, scaleX, scaleY, parseNumber)
  {
    draws := [];
    var i := 0;
    while i < |all|
      invariant 0 <= i <= |all|
      invariant draws == Plan(all[..i], scaleX, scaleY, parseNumber)
    {
      var d := OverlayDraw(all[i], scaleX, scaleY, parseNumber);
      PlanStep(all[..i], all[i], scaleX, scaleY, parseNumber);
      assert all[..i + 1] == all[..i] + [all[i]];
      if d.Some? {
        draws := draws + [d.value];
      }
      i := i + 1;
    }
    assert all[..i] == all;
  }

  /** One more overlay adds its draw, if any, at the end of the plan. */
  lemma PlanStep(done: seq<Snapshot>, next: Snapshot, scaleX: real, scaleY: real, parseNumber: string -> real)
    ensures var d := OverlayDraw(next, scaleX, scaleY, parseNumber);
            Plan(done + [next], scaleX, scaleY, parseNumber)
            == Plan(done, scaleX, scaleY, parseNumber) + if d.Some? then [d.value] else []
  {
    PlanAppend(done, [next], scaleX, scaleY, parseNumber);
    PlanSingle(next, scaleX, scaleY, parseNumber);
  }

  class Editor {
    var overlays: seq<Overlay>
    /** The overlay whose handlers `document.onmousemove` / `document.onmouseup` hold, if any. */
    var active: Overlay?
    var baseWidth: nat
    var baseHeight: nat
    var container: Size

    ghost predicate Valid()
      reads this, overlays, active
    {
      && Distinct(overlays)
      && (forall o | o in overlays :: o.Valid())
      && (active != null ==> active.Valid())
    }

    function Snapshots(render: real -> string): (r: seq<Snapshot>)
      reads this, overlays
      ensures |r| == |overlays|
      ensures forall i | 0 <= i < |r| :: r[i] == SnapshotOf(overlays[i].State(), render)
    {
      var os := overlays;
      seq(|os|, i requires 0 <= i < |os| reads os => SnapshotOf(os[i].State(), render))
    }

    /**
     * Opening the editor (contentScript.js:160-172): an empty list, then the
     * first overlay; the base image has not loaded yet and the editing area
     * has the size its stylesheet gives it.
     */
    constructor (initialContainer: Size)
      ensures Valid()
      ensures |overlays| == 1 && fresh(overlays[0]) && overlays[0].State() == Initial(0)
      ensures active == null && baseWidth == 0 && baseHeight == 0 && container == initialContainer
    {
      var first := new Overlay(0);
      overlays := [first];
      active := null;
      baseWidth, baseHeight := 0, 0;
      container := initialContainer;
    }

    /** The base image's onload (contentScript.js:143-158). */
    method BaseImageLoaded(w: nat, h: nat)
      requires Valid()
      modifies this
      ensures Valid()
      ensures baseWidth == w && baseHeight == h && container == FitContainer(w, h, old(container))
      ensures overlays == old(overlays) && active == old(active)
    {
      baseWidth, baseHeight := w, h;
      container := FitContainer(w, h, container);
    }

    /** addNewNomNomOverlay (contentScript.js:421-475): a new overlay at the cascade offset, appended on top. */
    method AddOverlay() returns (o: Overlay)
      requires Valid()
      modifies this
      ensures Valid() && fresh(o)
      ensures overlays == old(overlays) + [o] && o.State() == Initial(|old(overlays)|)
      ensures active == old(active) && baseWidth == old(baseWidth) && baseHeight == old(baseHeight)
      ensures container == old(container)
    {
      o := new Overlay(|overlays|);
      AppendFreshDistinct(overlays, o);
      overlays := overlays + [o];
    }

    /** The remove button (contentScript.js:461-465): the list filtered by identity. */
    method RemoveOverlay(o: Overlay)
      requires Valid()
      modifies this
      ensures Valid() && overlays == Without(old(overlays), o)
      ensures active == old(active) && baseWidth == old(baseWidth) && baseHeight == old(baseHeight)
      ensures container == old(container)
    {
      WithoutDistinct(overlays, o);
      overlays := Without(overlays, o);
    }

    /** The sticker image of a listed overlay finished loading (contentScript.js:489-500). */
    method OverlayImageLoaded(o: Overlay, w: nat, h: nat)
      requires Valid() && o in overlays
      modifies o
      ensures Valid() && o.State() == Loaded(old(o.State()), w, h)
    {
      o.ImageLoaded(w, h);
    }

    /** Press on an overlay's body: it takes the document handlers and starts a drag. */
    method MouseDownBody(o: Overlay, x: real, y: real)
      requires Valid() && o in overlays
      modifies this, o
      ensures Valid() && active == o && o.State() == GrabBody(old(o.State()), x, y)
      ensures overlays == old(overlays) && container == old(container)
      ensures baseWidth == old(baseWidth) && baseHeight == old(baseHeight)
    {
      o.MouseDownBody(x, y);
      active := o;
    }

    /** Press on a corner handle: the overlay takes the document handlers and starts a resize. */
    method MouseDownCorner(o: Overlay, corner: Corner, x: real, y: real)
      requires Valid() && o in overlays
      modifies this, o
      ensures Valid() && active == o && o.State() == GrabCorner(old(o.State()), corner, x, y)
      ensures overlays == old(overlays) && container == old(container)
      ensures baseWidth == old(baseWidth) && baseHeight == old(baseHeight)
    {
      o.MouseDownCorner(corner, x, y);
      active := o;
    }

    /** Press on the rotate handle: the overlay takes the document handlers and starts a rotation. */
    method MouseDownRotate(o: Overlay, x: real, y: real, originX: real, originY: real, atan2: (real, real) -> real)
      requires Valid() && o in overlays
      modifies this, o
      ensures Valid() && active == o && o.State() == GrabRotate(old(o.State()), x, y, originX, originY, atan2)
      ensures overlays == old(overlays) && container == old(container)
      ensures baseWidth == old(baseWidth) && baseHeight == old(baseHeight)
    {
      o.MouseDownRotate(x, y, originX, originY, atan2);
      active := o;
    }

    /** `document.onmousemove`: only the overlay holding the handlers reacts. */
    method MouseMove(x: real, y: real, atan2: (real, real) -> real)
      requires Valid()
      modifies active
      ensures Valid()
      ensures active != null ==> active.State() == Moved(old(active.State()), x, y, atan2)
    {
      if active != null {
        active.MouseMove(x, y, atan2);
      }
    }

    /** `document.onmouseup`: the gesture ends and the handlers are cleared. */
    method MouseUp()
      requires Valid()
      modifies this, active
      ensures Valid() && active == null
      ensures old(active) != null ==> old(active).State() == Released(old(active.State()))
      ensures overlays == old(overlays) && container == old(container)
      ensures baseWidth == old(baseWidth) && baseHeight == old(baseHeight)
    {
      if active != null {
        active.MouseUp();
      }
      active := null;
    }

    /** A click on an overlay's flip handle; it takes no document handler. */
    method FlipClick(o: Overlay)
      requires Valid() && o in overlays
      modifies o
      ensures Valid() && o.State() == Toggled(old(o.State()))
    {
      o.FlipClick();
    }

    /**
     * The geometry of renderAndCopyOrInsert (contentScript.js:242-295): the
     * overlay loop visits the list in order and hands each paintable overlay's
     * draw to the canvas. `render` is how JavaScript prints a number and
     * `parseNumber` is parseFloat. Reading an overlay changes nothing, so the
     * loop (PaintOverlays) runs over the overlays' snapshots.
     */
    method Export(render: real -> string, parseNumber: string -> real) returns (frame: Frame)
      ensures frame == Render(baseWidth, baseHeight, container.width, container.height, Snapshots(render), parseNumber)
    {
      var draws: seq<Draw> := [];
      if container.width > 0.0 && container.height > 0.0 {
        var scaleX := ExportScale(baseWidth, container.width);
        var scaleY := ExportScale(baseHeight, container.height);
        draws := PaintOverlays(Snapshots(render), scaleX, scaleY, parseNumber);
      }
      frame := Frame(baseWidth, baseHeight, draws);
    }
  }
}
