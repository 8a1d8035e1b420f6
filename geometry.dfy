/**
 * Editor-space geometry of the sticker editor: the corner-resize rule of one
 * overlay (width-driven, aspect-locked) and the fit-to-500 sizing of the
 * editing area once the base image has loaded. All lengths are CSS pixels,
 * modelled as reals; the integer rounding of offsetWidth/offsetHeight is not.
 */
module Geometry {

  /** Smallest width a corner resize leaves an overlay at (contentScript.js:550, 553). */
  const MinWidth: real := 30.0

  /** Width of a freshly placed or freshly loaded sticker (contentScript.js:431, 492). */
  const StickerWidth: real := 100.0

  /** Length of the longer side of the editing area (contentScript.js:145). */
  const EditorSide: real := 500.0

  /** Width over height of a loaded image, or the placeholder 1 before it loads. */
  type Ratio = r: real | r > 0.0 witness 1.0

  /** Left, top, width and height of an overlay container, in editor pixels. */
  datatype Box = Box(left: real, top: real, width: real, height: real)

  datatype Size = Size(width: real, height: real)

  /** The four resize handles (contentScript.js:503). */
  datatype Corner = NW | NE | SW | SE {

    /** The handle sits on the left edge, so the right edge is the one kept still. */
    predicate West() { this == NW || this == SW }

    /** The handle sits on the top edge, so the bottom edge is the one kept still. */
    predicate North() { this == NW || this == NE }
  }

  function Max(a: real, b: real): real { if a < b then b else a }

  /**
   * The box one mouse-move event of a corner-resize gesture leaves
   * (contentScript.js:545-561). `start` is the box at the press, `top` the
   * overlay's top edge just before this event and `dx` the horizontal pointer
   * travel since the press; the vertical travel plays no part.
   */
  function Resize(corner: Corner, start: Box, aspect: Ratio, top: real, dx: real): (r: Box)
    ensures r.width >= MinWidth
    ensures var pulled := if corner.West() then start.width - dx else start.width + dx;
            r.width == if pulled >= MinWidth then pulled else MinWidth
    ensures r.height * aspect == r.width
    ensures corner.West() ==> r.left + r.width == start.left + start.width
    ensures !corner.West() ==> r.left == start.left
    ensures corner.North() ==> r.top + r.height == start.top + start.height
    ensures !corner.North() ==> r.top == top
  {
    var width := if corner.West() then Max(MinWidth, start.width - dx) else Max(MinWidth, start.width + dx);
    var height := width / aspect;
    var left := if corner.West() then start.left + (start.width - width) else start.left;
    Box(left, if corner.North() then start.top + (start.height - height) else top, width, height)
  }

  /**
   * Size given to the editing area when the base image loads
   * (contentScript.js:143-155), computed as JavaScript does for every natural
   * size: a zero natural height makes the ratio Infinity (the wide branch, and
   * 500 / Infinity is 0); zero by zero makes it NaN (the tall branch, whose
   * width "NaNpx" CSS rejects, so the width stays `current.width`).
   */
  function FitContainer(naturalWidth: nat, naturalHeight: nat, current: Size): (r: Size)
    ensures naturalWidth > 0 && naturalHeight > 0 ==>
              && r.width > 0.0 && r.height > 0.0
              && Max(r.width, r.height) == EditorSide
              && r.width * naturalHeight as real == r.height * naturalWidth as real
    ensures naturalHeight > 0 ==> (r.width > r.height <==> naturalWidth > naturalHeight)
  {
    if naturalHeight > 0 then
      var aspect := naturalWidth as real / naturalHeight as real;
      if aspect > 1.0 then Size(EditorSide, EditorSide / aspect) else Size(EditorSide * aspect, EditorSide)
    else if naturalWidth > 0 then
      Size(EditorSide, 0.0)
    else
      Size(current.width, EditorSide)
  }
}
