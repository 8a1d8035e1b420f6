/**
 * The per-overlay gesture controller of setupOverlayInteractions
 * (contentScript.js:479-686). The source keeps the gesture in closure variables
 * and swaps `document.onmousemove` / `document.onmouseup` per gesture; here that
 * is an explicit state machine, Idle -> Dragging | Resizing | Rotating -> Idle,
 * whose transitions are pure functions, with the class Overlay applying them in
 * place. `atan2` (Math.atan2) is an uninterpreted parameter.
 */
module Controller {
  import opened Geometry

  /** Which document-level handler the overlay has installed, with what it captured at the press. */
  datatype Gesture =
    | Idle
    | Dragging(grabX: real, grabY: real)
    | Resizing(corner: Corner, startX: real, startY: real, start: Box)
    | Rotating(centerX: real, centerY: real, initialAngle: real, startMouseAngle: real)

  /**
   * One overlay: its container box, the sticker's aspect ratio (1 until the
   * image loads), the angle and mirror flag of the image, whether the image's
   * transform string has been written yet, the image's natural size (0 until it
   * loads) and the gesture in progress.
   */
  datatype OverlayState = OverlayState(
    box: Box,
    aspect: Ratio,
    angle: real,
    flipped: bool,
    styled: bool,
    naturalWidth: nat,
    naturalHeight: nat,
    gesture: Gesture)

  /** The input events one overlay reacts to. */
  datatype Event =
    | ImageLoad(naturalWidth: nat, naturalHeight: nat)
    | BodyDown(x: real, y: real)
    | CornerDown(corner: Corner, x: real, y: real)
    | RotateDown(x: real, y: real, originX: real, originY: real)
    | Move(x: real, y: real)
    | Up
    | FlipClick

  /** Left and top offset of the n-th overlay added to the editor (contentScript.js:429-430). */
  function CascadeOffset(n: nat): (r: real)
    ensures r >= 50.0
    ensures n == 0 ==> r == 50.0
    ensures n > 0 ==> r == CascadeOffset(n - 1) + 20.0
  {
    50.0 + 20.0 * n as real
  }

  /**
   * What every overlay keeps: the minimum width, height locked to width by the
   * aspect ratio, the ratio equal to the natural one once both natural sides
   * are known, and an untouched transform string meaning angle 0, not mirrored.
   */
  ghost predicate Invariant(s: OverlayState)
  {
    && s.box.width >= MinWidth
    && s.box.height * s.aspect == s.box.width
    && (s.naturalWidth > 0 && s.naturalHeight > 0 ==> s.aspect * s.naturalHeight as real == s.naturalWidth as real)
    && (!s.styled ==> s.angle == 0.0 && !s.flipped)
  }

  /** A new overlay: 100 by 100 at the cascade offset, ratio 1, no rotation, no mirror (contentScript.js:429-432, 483-488, 624). */
  function Initial(n: nat): (s: OverlayState)
    ensures Invariant(s)
    ensures s.box.left == s.box.top == CascadeOffset(n)
    ensures s.box.width == StickerWidth && s.box.height == StickerWidth && s.gesture == Idle
    ensures s.aspect == 1.0 && s.angle == 0.0 && !s.flipped && !s.styled
    ensures s.naturalWidth == 0 && s.naturalHeight == 0
  {
    var offset := CascadeOffset(n);
    OverlayState(Box(offset, offset, StickerWidth, StickerWidth), 1.0, 0.0, false, false, 0, 0, Idle)
  }

  /**
   * setOverlayInitialSize (contentScript.js:489-500): once both natural sides
   * are non-zero, the ratio becomes theirs and the box is reset to width 100
   * with the matching height; position, angle and gesture are kept.
   */
  function Loaded(s: OverlayState, naturalWidth: nat, naturalHeight: nat): (r: OverlayState)
    ensures Invariant(s) ==> Invariant(r)
    ensures naturalWidth > 0 && naturalHeight > 0 ==>
              r.box.width == StickerWidth && r.box.height * naturalWidth as real == StickerWidth * naturalHeight as real
    ensures naturalWidth == 0 || naturalHeight == 0 ==> r.box == s.box && r.aspect == s.aspect
    ensures r.box.left == s.box.left && r.box.top == s.box.top
    ensures r.angle == s.angle && r.flipped == s.flipped && r.styled == s.styled && r.gesture == s.gesture
    ensures r.naturalWidth == naturalWidth && r.naturalHeight == naturalHeight
    ensures naturalWidth > 0 && naturalHeight > 0 ==> r.aspect * naturalHeight as real == naturalWidth as real
  {
    if naturalWidth != 0 && naturalHeight != 0 then
      var aspect: Ratio := naturalWidth as real / naturalHeight as real;
      s.(naturalWidth := naturalWidth, naturalHeight := naturalHeight, aspect := aspect,
         box := s.box.(width := StickerWidth, height := StickerWidth / aspect))
    else
      s.(naturalWidth := naturalWidth, naturalHeight := naturalHeight)
  }

  /** Press on the overlay's body (contentScript.js:627-631): remember the grab offset. */
  function GrabBody(s: OverlayState, x: real, y: real): (r: OverlayState)
    ensures r.gesture.Dragging?
    ensures x - r.gesture.grabX == s.box.left && y - r.gesture.grabY == s.box.top
    ensures r.(gesture := s.gesture) == s
  {
    s.(gesture := Dragging(x - s.box.left, y - s.box.top))
  }

  /** Press on a corner handle (contentScript.js:535-544): remember the pointer and the box. */
  function GrabCorner(s: OverlayState, corner: Corner, x: real, y: real): (r: OverlayState)
    ensures r.gesture.Resizing? && r.gesture.corner == corner && r.gesture.start == s.box
    ensures r.gesture.startX == x && r.gesture.startY == y
    ensures r.(gesture := s.gesture) == s
  {
    s.(gesture := Resizing(corner, x, y, s.box))
  }

  /**
   * Press on the rotate handle (contentScript.js:655-668): the centre of the
   * container's client rectangle (`originX`, `originY` place the editor's
   * offset parent in client coordinates), the angle at the press and the
   * pointer's angle around the centre.
   */
  function GrabRotate(s: OverlayState, x: real, y: real, originX: real, originY: real, atan2: (real, real) -> real): (r: OverlayState)
    ensures r.gesture.Rotating? && r.gesture.initialAngle == s.angle
    ensures r.gesture.centerX == originX + s.box.left + s.box.width / 2.0
    ensures r.gesture.centerY == originY + s.box.top + s.box.height / 2.0
    ensures r.gesture.startMouseAngle == atan2(y - r.gesture.centerY, x - r.gesture.centerX)
    ensures r.(gesture := s.gesture) == s
  {
    var cx := originX + s.box.left + s.box.width / 2.0;
    var cy := originY + s.box.top + s.box.height / 2.0;
    s.(gesture := Rotating(cx, cy, s.angle, atan2(y - cy, x - cx)))
  }

  /**
   * One mouse-move event of a corner resize: the resize rule of
   * contentScript.js:545-560, with the height derived from the overlay's
   * current aspect ratio. The source divides by the ratio it read at the press
   * instead; see ResizeMoveAsWritten.
   */
  function ResizeMove(s: OverlayState, x: real): (r: OverlayState)
    requires s.gesture.Resizing?
    ensures Invariant(s) ==> Invariant(r)
    ensures r.box == Resize(s.gesture.corner, s.gesture.start, s.aspect, s.box.top, x - s.gesture.startX)
    ensures r.(box := s.box) == s
  {
    s.(box := Resize(s.gesture.corner, s.gesture.start, s.aspect, s.box.top, x - s.gesture.startX))
  }

  /**
   * The resize move exactly as the source writes it: the height divides by
   * `pressAspect`, the overlay's ratio when the handle was pressed
   * (contentScript.js:544, 556). It keeps the box locked to that ratio, which
   * differs from the overlay's own once the image loaded during the gesture.
   */
  function ResizeMoveAsWritten(s: OverlayState, x: real, pressAspect: Ratio): (r: OverlayState)
    requires s.gesture.Resizing?
    ensures r.box.height * pressAspect == r.box.width
    ensures r.(box := s.box) == s
  {
    s.(box := Resize(s.gesture.corner, s.gesture.start, pressAspect, s.box.top, x - s.gesture.startX))
  }

  /** The installed `document.onmousemove` handler (contentScript.js:545-561, 632-639, 669-676), if any. */
  function Moved(s: OverlayState, x: real, y: real, atan2: (real, real) -> real): (r: OverlayState)
    ensures Invariant(s) ==> Invariant(r)
    ensures r.gesture == s.gesture && r.aspect == s.aspect && r.flipped == s.flipped
    ensures s.gesture.Idle? ==> r == s
    ensures s.gesture.Dragging? ==>
              && r.box == s.box.(left := x - s.gesture.grabX, top := y - s.gesture.grabY)
              && r.angle == s.angle
    ensures s.gesture.Resizing? ==> r.box.width >= MinWidth && r.angle == s.angle
    ensures s.gesture.Rotating? ==>
              && r.box == s.box
              && r.angle - s.gesture.initialAngle
                 == atan2(y - s.gesture.centerY, x - s.gesture.centerX) - s.gesture.startMouseAngle
  {
    match s.gesture
    case Idle => s
    case Dragging(gx, gy) => s.(box := s.box.(left := x - gx, top := y - gy))
    case Resizing(_, _, _, _) => ResizeMove(s, x)
    case Rotating(cx, cy, a0, m0) => s.(angle := a0 + (atan2(y - cy, x - cx) - m0), styled := true)
  }

  /** The installed `document.onmouseup` handler: the gesture ends, nothing else changes. */
  function Released(s: OverlayState): (r: OverlayState)
    ensures r.gesture == Idle && r.(gesture := s.gesture) == s
  {
    s.(gesture := Idle)
  }

  /** A click on the flip handle (contentScript.js:648-652): toggles the mirror flag, keeps the angle. */
  function Toggled(s: OverlayState): (r: OverlayState)
    ensures Invariant(s) ==> Invariant(r)
    ensures r.flipped == !s.flipped && r.styled
    ensures r.(flipped := s.flipped, styled := s.styled) == s
  {
    s.(flipped := !s.flipped, styled := true)
  }

  /** One event applied to one overlay. */
  function Step(s: OverlayState, e: Event, atan2: (real, real) -> real): (r: OverlayState)
    ensures Invariant(s) ==> Invariant(r)
    ensures !e.ImageLoad? ==> r.aspect == s.aspect
  {
    match e
    case ImageLoad(w, h) => Loaded(s, w, h)
    case BodyDown(x, y) => GrabBody(s, x, y)
    case CornerDown(c, x, y) => GrabCorner(s, c, x, y)
    case RotateDown(x, y, ox, oy) => GrabRotate(s, x, y, ox, oy, atan2)
    case Move(x, y) => Moved(s, x, y, atan2)
    case Up => Released(s)
    case FlipClick => Toggled(s)
  }

  /** A sequence of events applied in order. */
  function Run(s: OverlayState, es: seq<Event>, atan2: (real, real) -> real): OverlayState
    decreases |es|
  {
    if es == [] then s else Run(Step(s, es[0], atan2), es[1..], atan2)
  }

  predicate AllMoves(es: seq<Event>)
  {
    forall i | 0 <= i < |es| :: es[i].Move?
  }

  lemma {:induction false} RunAppend(s: OverlayState, a: seq<Event>, b: seq<Event>, atan2: (real, real) -> real)
    ensures Run(s, a + b, atan2) == Run(Run(s, a, atan2), b, atan2)
    decreases |a|
  {
    if a == [] {
      assert a + b == b;
    } else {
      assert (a + b)[0] == a[0] && (a + b)[1..] == a[1..] + b;
      RunAppend(Step(s, a[0], atan2), a[1..], b, atan2);
    }
  }

  /** Every overlay reachable by any event sequence keeps the invariant (minimum width, aspect lock). */
  lemma {:induction false} RunKeepsInvariant(s: OverlayState, es: seq<Event>, atan2: (real, real) -> real)
    requires Invariant(s)
    ensures Invariant(Run(s, es, atan2))
    decreases |es|
  {
    if es != [] {
      RunKeepsInvariant(Step(s, es[0], atan2), es[1..], atan2);
    }
  }

  /** Without an image load among the events, the ratio stays what it was: no gesture changes it. */
  lemma {:induction false} RunKeepsRatio(s: OverlayState, es: seq<Event>, atan2: (real, real) -> real)
    requires forall i | 0 <= i < |es| :: !es[i].ImageLoad?
    ensures Run(s, es, atan2).aspect == s.aspect
    decreases |es|
  {
    if es != [] {
      assert !es[0].ImageLoad?;
      RunKeepsRatio(Step(s, es[0], atan2), es[1..], atan2);
    }
  }

  /** Every overlay the editor creates, after any events at all, has width at least 30 and height width / ratio. */
  lemma {:induction false} ReachableOverlays(n: nat, es: seq<Event>, atan2: (real, real) -> real)
    ensures var r := Run(Initial(n), es, atan2);
            r.box.width >= MinWidth && r.box.height * r.aspect == r.box.width
  {
    RunKeepsInvariant(Initial(n), es, atan2);
  }

  /**
   * While the pointer moves in a drag, the box's top-left corner is the
   * pointer minus the grab offset taken at the press: only the last pointer
   * position counts, nothing is clamped, and size, angle and mirror stay.
   */
  lemma {:induction false} DragFollowsPointer(s: OverlayState, x0: real, y0: real, moves: seq<Event>, atan2: (real, real) -> real)
    requires AllMoves(moves)
    ensures var r := Run(GrabBody(s, x0, y0), moves, atan2);
            && r.gesture == Dragging(x0 - s.box.left, y0 - s.box.top)
            && r.box.width == s.box.width && r.box.height == s.box.height
            && r.angle == s.angle && r.flipped == s.flipped && r.aspect == s.aspect
            && (moves == [] ==> r.box == s.box)
            && (moves != [] ==>
                  var last := moves[|moves| - 1];
                  r.box.left == s.box.left + (last.x - x0) && r.box.top == s.box.top + (last.y - y0))
    decreases |moves|
  {
    var g := GrabBody(s, x0, y0);
    DragFollowsPointerFrom(g, moves, atan2);
  }

  /** Helper of DragFollowsPointer: with the grab offset fixed, the last move decides. */
  lemma {:induction false} DragFollowsPointerFrom(t: OverlayState, moves: seq<Event>, atan2: (real, real) -> real)
    requires AllMoves(moves) && t.gesture.Dragging?
    ensures var r := Run(t, moves, atan2);
            && r.(box := t.box) == t
            && r.box.width == t.box.width && r.box.height == t.box.height
            && (moves == [] ==> r.box == t.box)
            && (moves != [] ==>
                  var last := moves[|moves| - 1];
                  r.box.left == last.x - t.gesture.grabX && r.box.top == last.y - t.gesture.grabY)
    decreases |moves|
  {
    if moves != [] {
      DragFollowsPointerFrom(Step(t, moves[0], atan2), moves[1..], atan2);
    }
  }

  /** A press on the body and a release with no movement in between leave the overlay as it was. */
  lemma PressReleaseKeepsOverlay(s: OverlayState, x: real, y: real, atan2: (real, real) -> real)
    requires s.gesture == Idle
    ensures Run(s, [BodyDown(x, y), Up], atan2) == s
  {
    var es := [BodyDown(x, y), Up];
    assert es[1..] == [Up] && [Up][1..] == [];
  }

  /**
   * During a resize gesture the box depends only on the last pointer position:
   * it is the resize rule applied to the box at the press.
   */
  lemma {:induction false} ResizeFollowsLastMove(
    s: OverlayState, corner: Corner, x0: real, y0: real, moves: seq<Event>, atan2: (real, real) -> real)
    requires AllMoves(moves) && moves != []
    ensures var r := Run(GrabCorner(s, corner, x0, y0), moves, atan2);
            && r.box == Resize(corner, s.box, s.aspect, s.box.top, moves[|moves| - 1].x - x0)
            && r.gesture == Resizing(corner, x0, y0, s.box)
            && r.angle == s.angle && r.flipped == s.flipped && r.aspect == s.aspect
    decreases |moves|
  {
    var g := GrabCorner(s, corner, x0, y0);
    var t := Step(g, moves[0], atan2);
    var b := Resize(corner, s.box, s.aspect, s.box.top, moves[0].x - x0);
    assert t.box == b;
    if |moves| > 1 {
      ResizeFollowsLastMoveFrom(t, corner, x0, y0, s.box, moves[1..], atan2);
    }
  }

  /** Helper of ResizeFollowsLastMove: from any point inside the gesture, the next moves decide. */
  lemma {:induction false} ResizeFollowsLastMoveFrom(
    t: OverlayState, corner: Corner, x0: real, y0: real, start: Box, moves: seq<Event>, atan2: (real, real) -> real)
    requires AllMoves(moves) && moves != []
    requires t.gesture == Resizing(corner, x0, y0, start)
    requires !corner.North() ==> t.box.top == start.top
    ensures var r := Run(t, moves, atan2);
            && r.box == Resize(corner, start, t.aspect, start.top, moves[|moves| - 1].x - x0)
            && r.(box := t.box) == t
    decreases |moves|
  {
    var t' := Step(t, moves[0], atan2);
    if |moves| > 1 {
      ResizeFollowsLastMoveFrom(t', corner, x0, y0, start, moves[1..], atan2);
    }
  }

  /**
   * During a rotate gesture the angle is the angle at the press plus the turn
   * of the pointer around the centre between the press and the last move:
   * intermediate positions do not matter, and the box never changes.
   */
  lemma {:induction false} RotateFollowsLastMove(
    s: OverlayState, x0: real, y0: real, ox: real, oy: real, moves: seq<Event>, atan2: (real, real) -> real)
    requires AllMoves(moves)
    ensures var g := GrabRotate(s, x0, y0, ox, oy, atan2);
            var r := Run(g, moves, atan2);
            && r.box == s.box && r.flipped == s.flipped && r.aspect == s.aspect && r.gesture == g.gesture
            && (moves == [] ==> r.angle == s.angle)
            && (moves != [] ==>
                  var last := moves[|moves| - 1];
                  r.angle == s.angle + (atan2(last.y - g.gesture.centerY, last.x - g.gesture.centerX)
                                        - g.gesture.startMouseAngle))
    decreases |moves|
  {
    if moves != [] {
      var g := GrabRotate(s, x0, y0, ox, oy, atan2);
      RotateFollowsLastMoveFrom(Step(g, moves[0], atan2), moves[1..], atan2, g.gesture, moves[0]);
    }
  }

  /** Helper of RotateFollowsLastMove. */
  lemma {:induction false} RotateFollowsLastMoveFrom(
    t: OverlayState, moves: seq<Event>, atan2: (real, real) -> real, g: Gesture, previous: Event)
    requires AllMoves(moves) && previous.Move? && g.Rotating? && t.gesture == g && t.styled
    requires t.angle == g.initialAngle + (atan2(previous.y - g.centerY, previous.x - g.centerX) - g.startMouseAngle)
    ensures var r := Run(t, moves, atan2);
            && r.(angle := t.angle) == t
            && var last := if moves == [] then previous else moves[|moves| - 1];
               r.angle == g.initialAngle + (atan2(last.y - g.centerY, last.x - g.centerX) - g.startMouseAngle)
    decreases |moves|
  {
    if moves != [] {
      RotateFollowsLastMoveFrom(Step(t, moves[0], atan2), moves[1..], atan2, g, moves[0]);
    }
  }

  /** The turn of the pointer around the centre over one rotate gesture, as the controller computes it. */
  function Turn(s: OverlayState, x0: real, y0: real, ox: real, oy: real, x1: real, y1: real, atan2: (real, real) -> real): real
  {
    var g := GrabRotate(s, x0, y0, ox, oy, atan2).gesture;
    atan2(y1 - g.centerY, x1 - g.centerX) - g.startMouseAngle
  }

  /** The events of one rotate gesture: press, the given moves, release. */
  function RotateGesture(x0: real, y0: real, ox: real, oy: real, moves: seq<Event>): seq<Event>
  {
    [RotateDown(x0, y0, ox, oy)] + moves + [Up]
  }

  /**
   * Rotation is additive: two complete rotate gestures turn the overlay by the
   * sum of their turns, each measured from its own press to its own last move.
   */
  lemma {:induction false} RotationsAdd(
    s: OverlayState, p: (real, real, real, real), m1: seq<Event>, q: (real, real, real, real), m2: seq<Event>,
    atan2: (real, real) -> real)
    requires AllMoves(m1) && AllMoves(m2) && m1 != [] && m2 != []
    ensures var r := Run(s, RotateGesture(p.0, p.1, p.2, p.3, m1) + RotateGesture(q.0, q.1, q.2, q.3, m2), atan2);
            var l1 := m1[|m1| - 1];
            var l2 := m2[|m2| - 1];
            && r.angle == s.angle + Turn(s, p.0, p.1, p.2, p.3, l1.x, l1.y, atan2)
                                  + Turn(s, q.0, q.1, q.2, q.3, l2.x, l2.y, atan2)
            && r.box == s.box && r.flipped == s.flipped && r.gesture == Idle
  {
    var s1 := OneRotation(s, p.0, p.1, p.2, p.3, m1, atan2);
    var s2 := OneRotation(s1, q.0, q.1, q.2, q.3, m2, atan2);
    RunAppend(s, RotateGesture(p.0, p.1, p.2, p.3, m1), RotateGesture(q.0, q.1, q.2, q.3, m2), atan2);
    assert Turn(s1, q.0, q.1, q.2, q.3, m2[|m2| - 1].x, m2[|m2| - 1].y, atan2)
        == Turn(s, q.0, q.1, q.2, q.3, m2[|m2| - 1].x, m2[|m2| - 1].y, atan2);
  }

  /** One complete rotate gesture, with the state it leaves. */
  lemma {:induction false} OneRotation(
    s: OverlayState, x0: real, y0: real, ox: real, oy: real, moves: seq<Event>, atan2: (real, real) -> real)
    returns (r: OverlayState)
    requires AllMoves(moves) && moves != []
    ensures r == Run(s, RotateGesture(x0, y0, ox, oy, moves), atan2)
    ensures var last := moves[|moves| - 1];
            && r.angle == s.angle + Turn(s, x0, y0, ox, oy, last.x, last.y, atan2)
            && r.box == s.box && r.flipped == s.flipped && r.gesture == Idle
  {
    var g := GrabRotate(s, x0, y0, ox, oy, atan2);
    RunAppend(s, [RotateDown(x0, y0, ox, oy)], moves + [Up], atan2);
    assert RotateGesture(x0, y0, ox, oy, moves) == [RotateDown(x0, y0, ox, oy)] + (moves + [Up]);
    assert Run(s, [RotateDown(x0, y0, ox, oy)], atan2) == g;
    RunAppend(g, moves, [Up], atan2);
    RotateFollowsLastMove(s, x0, y0, ox, oy, moves, atan2);
    r := Run(s, RotateGesture(x0, y0, ox, oy, moves), atan2);
  }

  /** A rotate press released without any move turns nothing: only the gesture ends. */
  lemma RotationWithoutMove(s: OverlayState, x0: real, y0: real, ox: real, oy: real, atan2: (real, real) -> real)
    ensures Run(s, RotateGesture(x0, y0, ox, oy, []), atan2) == s.(gesture := Idle)
  {
    var es := RotateGesture(x0, y0, ox, oy, []);
    assert es == [RotateDown(x0, y0, ox, oy), Up];
    assert es[1..] == [Up] && [Up][1..] == [];
  }

  /** Two clicks on the flip handle restore the mirror flag and never touch the angle or the box. */
  lemma FlipTwice(s: OverlayState, atan2: (real, real) -> real)
    ensures Run(s, [FlipClick, FlipClick], atan2) == s.(styled := true)
  {
  }

  /**
   * The aspect lock fails as the source is written: press the south-east
   * handle of a fresh overlay before its image loads (ratio 1), let a 200 by
   * 100 image load (ratio 2, box 100 by 50), then move the pointer without
   * horizontal travel: the height becomes 100 / 1 while the ratio is 2. The
   * model's resize move keeps the lock on the same inputs.
   */
  lemma StaleAspectBreaksLock()
    ensures var pressed := GrabCorner(Initial(0), SE, 0.0, 0.0);
            var loaded := Loaded(pressed, 200, 100);
            && !Invariant(ResizeMoveAsWritten(loaded, 0.0, Initial(0).aspect))
            && Invariant(ResizeMove(loaded, 0.0))
  {
    var pressed := GrabCorner(Initial(0), SE, 0.0, 0.0);
    var loaded := Loaded(pressed, 200, 100);
    assert loaded.aspect == 2.0;
    var stale := ResizeMoveAsWritten(loaded, 0.0, Initial(0).aspect);
    assert stale.box.width == 100.0 && stale.box.height == 100.0;
  }

  /**
   * The overlay as the editor holds it: the container's box, the closure
   * variables of setupOverlayInteractions and the image's transform and
   * natural size. Each method is one event handler of the source.
   */
  class Overlay {
    var box: Box
    var aspect: Ratio
    var angle: real
    var flipped: bool
    var styled: bool
    var naturalWidth: nat
    var naturalHeight: nat
    var gesture: Gesture

    function State(): OverlayState
      reads this
    {
      OverlayState(box, aspect, angle, flipped, styled, naturalWidth, naturalHeight, gesture)
    }

    ghost predicate Valid()
      reads this
    {
      Invariant(State())
    }

    /** The n-th overlay of the editor, before its image has loaded. */
    constructor (n: nat)
      ensures Valid() && State() == Initial(n)
    {
      var offset := CascadeOffset(n);
      box := Box(offset, offset, StickerWidth, StickerWidth);
      aspect := 1.0;
      angle := 0.0;
      flipped := false;
      styled := false;
      naturalWidth := 0;
      naturalHeight := 0;
      gesture := Idle;
    }

    method ImageLoaded(w: nat, h: nat)
      requires Valid()
      modifies this
      ensures Valid() && State() == Loaded(old(State()), w, h)
    {
      naturalWidth, naturalHeight := w, h;
      if w != 0 && h != 0 {
        aspect := w as real / h as real;
        box := box.(width := StickerWidth, height := StickerWidth / aspect);
      }
    }

    method MouseDownBody(x: real, y: real)
      requires Valid()
      modifies this
      ensures Valid() && State() == GrabBody(old(State()), x, y)
    {
      gesture := Dragging(x - box.left, y - box.top);
    }

    method MouseDownCorner(corner: Corner, x: real, y: real)
      requires Valid()
      modifies this
      ensures Valid() && State() == GrabCorner(old(State()), corner, x, y)
    {
      gesture := Resizing(corner, x, y, box);
    }

    method MouseDownRotate(x: real, y: real, originX: real, originY: real, atan2: (real, real) -> real)
      requires Valid()
      modifies this
      ensures Valid() && State() == GrabRotate(old(State()), x, y, originX, originY, atan2)
    {
      var cx := originX + box.left + box.width / 2.0;
      var cy := originY + box.top + box.height / 2.0;
      gesture := Rotating(cx, cy, angle, atan2(y - cy, x - cx));
    }

    method MouseMove(x: real, y: real, atan2: (real, real) -> real)
      requires Valid()
      modifies this
      ensures Valid() && State() == Moved(old(State()), x, y, atan2)
    {
      match gesture
      case Idle =>
      case Dragging(gx, gy) =>
        box := box.(left := x - gx, top := y - gy);
      case Resizing(corner, sx, _, start) =>
        box := Resize(corner, start, aspect, box.top, x - sx);
      case Rotating(cx, cy, a0, m0) =>
        angle := a0 + (atan2(y - cy, x - cx) - m0);
        styled := true;
    }

    method MouseUp()
      requires Valid()
      modifies this
      ensures Valid() && State() == Released(old(State()))
    {
      gesture := Idle;
    }

    method FlipClick()
      requires Valid()
      modifies this
      ensures Valid() && State() == Toggled(old(State()))
    {
      flipped := !flipped;
      styled := true;
    }
  }
}
