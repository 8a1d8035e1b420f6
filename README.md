# nomnom sticker editor: a verified model

nomnom is a browser extension for X (Twitter). When the user opens its editor
on a post's image, a modal shows the image, fitted into a 500-pixel square,
with one "nomnom" sticker on top of it. The user can add more stickers and
remove them. Each sticker can be dragged, resized from its four corners with
its aspect ratio kept, rotated around its centre, and mirrored. The export
paints the image and the stickers onto a canvas at the image's natural size.

This project models the geometric core of `contentScript.js`:

- `geometry.dfy` (module `Geometry`): the corner-resize rule and the fitting
  of the editing area to the base image.
- `controller.dfy` (module `Controller`): the per-sticker gesture handlers of
  `setupOverlayInteractions`.
  - The source keeps the gesture in closure variables and swaps
    `document.onmousemove` / `document.onmouseup`. Here the gesture is an
    explicit state machine: Idle, then Dragging, Resizing or Rotating, then
    Idle again.
  - Pure step functions give each transition. The class `Overlay` applies them
    in place, one method per event handler.
- `style.dfy` (module `Style`): the `rotate(<angle>rad) scaleX(±1)` string the
  handlers write, and how the export reads it back (the regular expression
  `rotate\(([-0-9.]+)rad\)` and the `scaleX(-1)` test).
- `compositor.dfy` (module `Compositor`): the geometry of
  `renderAndCopyOrInsert`. It gives the list of draws (centre, rotation, mirror,
  rectangle) handed to the canvas, in paint order.
- `collection.dfy` (module `Collection`): the overlay list
  `window.nomnomOverlays`, appended to on add and filtered by identity on
  remove.
- `editor.dfy` (module `EditorSession`): one editor session as a class
  `Editor`.
  - It holds the overlay list, the size of the editing area, the base image's
    natural size, and the single overlay holding the document-level mouse
    handlers.
  - Its export loop is proved equal to the compositor's specification.
- `selector.dfy` (module `Selector`): `getUniqueSelector`, the
  `>`-joined CSS path of an element. No code calls it.
- `wrappers.dfy`: the `Option` type.

External behaviour becomes parameters:

- `atan2` is `Math.atan2`.
- `render` is how JavaScript prints a number inside a template string.
- `parseNumber` is `parseFloat`.

Positions and sizes are `real`s; "## Left out" says what that leaves out.

An overlay at (50, 50), 100 wide, with both scales 2, is painted centred at
(200, 200): the export translates to `left * scaleX` and then by `width / 2`
(contentScript.js:265-267, 287-288). See `Compositor.ScaledSquare`.

## Model

| member | source | states |
|---|---|---|
| Geometry.Resize | contentScript.js:545-561 | width is the start width minus (west corners) or plus (east corners) the horizontal pointer travel, but never below 30; height times ratio equals width; west corners keep the right edge, east corners the left edge; north corners keep the bottom edge, south corners leave the top where it is |
| Geometry.FitContainer | contentScript.js:143-155 | for a loaded image, both sides are positive, the longer one is 500 and the area has the image's proportions; the area is wider than tall exactly when the image is |
| Controller.CascadeOffset | contentScript.js:429-430 | the n-th overlay's offset is 50 plus 20 per overlay already in the list |
| Controller.Initial | contentScript.js:429-432 | a new overlay is a 100 by 100 box at the cascade offset with ratio 1, angle 0, no mirror, no transform written, no image size yet, idle, and satisfies the overlay invariant |
| Controller.Loaded | contentScript.js:489-500 | the natural size is recorded; once both natural sides are non-zero, the ratio is natural width over natural height and the box is 100 wide with height 100 times natural height over natural width; a zero side changes neither box nor ratio; position, angle, mirror, the written-transform mark and the gesture are kept; the invariant is preserved |
| Controller.GrabBody | contentScript.js:627-631 | a body press starts a drag whose grab offset is the pointer minus the box's top-left corner, and changes nothing else |
| Controller.GrabCorner | contentScript.js:535-544 | a corner press starts a resize that records the corner, the pointer and the box at the press, and changes nothing else |
| Controller.GrabRotate | contentScript.js:655-668 | a rotate press records the client-space centre of the box, the current angle and the pointer's atan2 angle around that centre |
| Controller.ResizeMove | contentScript.js:545-560 | a resize move sets the box to the resize rule applied to the box at the press; all else is kept and the invariant is preserved |
| Controller.ResizeMoveAsWritten | contentScript.js:544-556 | the resize move as written keeps the box locked to the ratio captured at the press |
| Controller.Moved | contentScript.js:545-561 | with no gesture a move does nothing; a drag puts the top-left corner at the pointer minus the grab offset; a resize keeps width at least 30; a rotation sets the angle to the press angle plus the pointer's turn; gesture, ratio and mirror are kept; the invariant is preserved |
| Controller.Released | contentScript.js:562-565 | releasing ends the gesture and changes nothing else |
| Controller.Toggled | contentScript.js:648-652 | a flip click toggles the mirror flag, marks the transform as written and keeps angle and box; the invariant is preserved |
| Controller.Step | contentScript.js:489-682 | every event preserves the invariant; only an image load changes the ratio (with the corrected resize move, see "## Findings") |
| Controller.RunAppend | contentScript.js:479-686 | running two event sequences one after the other is running their concatenation |
| Controller.RunKeepsInvariant | contentScript.js:479-686 | any sequence of events preserves the overlay invariant (with the corrected resize move, see "## Findings") |
| Controller.ReachableOverlays | contentScript.js:421-500 | every overlay the editor creates stays at least 30 wide with height equal to width over its ratio, whatever events follow (with the corrected resize move, see "## Findings") |
| Controller.Run | contentScript.js:479-686 | definition only: the events applied one after the other in order; what it keeps is stated by Controller.RunAppend, Controller.RunKeepsInvariant and Controller.RunKeepsRatio |
| Controller.RunKeepsRatio | contentScript.js:479-686 | when no image load is among the events, no sequence of gestures changes the ratio |
| Controller.DragFollowsPointer | contentScript.js:627-639 | during a drag the top-left corner is the box at the press moved by the last pointer travel; size, angle, mirror and ratio stay |
| Controller.DragFollowsPointerFrom | contentScript.js:632-639 | within a drag only the last move decides the position |
| Controller.PressReleaseKeepsOverlay | contentScript.js:627-644 | a body press followed at once by a release leaves the overlay as it was |
| Controller.ResizeFollowsLastMove | contentScript.js:535-561 | during a resize the box is the resize rule applied to the box at the press and the last horizontal travel; angle, mirror and ratio stay |
| Controller.ResizeFollowsLastMoveFrom | contentScript.js:545-561 | within a resize only the last move decides the box |
| Controller.RotateFollowsLastMove | contentScript.js:655-676 | during a rotation the angle is the press angle plus the pointer's turn from the press to the last move; box, mirror and ratio stay |
| Controller.RotateFollowsLastMoveFrom | contentScript.js:669-676 | within a rotation only the last move decides the angle |
| Controller.OneRotation | contentScript.js:655-682 | one complete rotate gesture turns the overlay by the pointer's turn and ends idle with box and mirror kept |
| Controller.RotationsAdd | contentScript.js:655-682 | two complete rotate gestures turn the overlay by the sum of their turns |
| Controller.RotationWithoutMove | contentScript.js:655-682 | a rotate press released without any move turns nothing: only the gesture ends |
| Controller.FlipTwice | contentScript.js:648-652 | two flip clicks restore the overlay, with its transform now written |
| Controller.StaleAspectBreaksLock | contentScript.js:544-556 | a press before the sticker loads, then a load and a move: the as-written move breaks the aspect lock, the modelled move keeps it |
| Controller.Overlay.constructor | contentScript.js:426-432 | a new overlay object is in the initial state for its position in the list |
| Controller.Overlay.ImageLoaded | contentScript.js:489-500 | the object's new state is `Loaded` of its old state; the invariant is kept |
| Controller.Overlay.MouseDownBody | contentScript.js:627-631 | the object's new state is `GrabBody` of its old state |
| Controller.Overlay.MouseDownCorner | contentScript.js:535-544 | the object's new state is `GrabCorner` of its old state |
| Controller.Overlay.MouseDownRotate | contentScript.js:655-668 | the object's new state is `GrabRotate` of its old state |
| Controller.Overlay.MouseMove | contentScript.js:545-561 | the object's new state is `Moved` of its old state; the invariant is kept |
| Controller.Overlay.MouseUp | contentScript.js:640-644 | the object's new state is `Released` of its old state |
| Controller.Overlay.FlipClick | contentScript.js:648-652 | the object's new state is `Toggled` of its old state |
| Style.DecimalRun | contentScript.js:276 | the longest prefix made of `-`, digits and `.` |
| Style.FormatTransform | contentScript.js:651 | definition only: `rotate(` + angle text + `rad) scaleX(-1)` for a flipped overlay, `scaleX(1)` otherwise; what it promises is stated by Style.FormatTransformShape, Style.MirrorRoundTrip and Style.AngleRoundTrip |
| Style.FormatTransformShape | contentScript.js:674 | a written transform starts with `rotate(<angle text>rad)` and the rest is ` scaleX(-1)` when flipped, ` scaleX(1)` otherwise |
| Style.MatchRotateAt | contentScript.js:276 | definition only: the pattern tried at one position of the transform; Style.MatchRotateAtIsPattern states what it captures |
| Style.MatchRotateAtIsPattern | contentScript.js:276 | the match at a position captures `t` exactly when `t` is a non-empty run of `-`, digits and `.` and the text there starts with `rotate(` + `t` + `rad)` |
| Style.HasMirror | contentScript.js:280 | definition only: `scaleX(-1)` occurs at some position; Style.MirrorMarkFound, Style.MirrorMarkAbsent and Style.MirrorRoundTrip state what it reads from a written transform |
| Style.AngleToken | contentScript.js:276 | the captured angle text, when the pattern matches, is a non-empty run of `-`, digits and `.` |
| Style.ParseTransform | contentScript.js:272-283 | an empty transform means angle 0, not mirrored; otherwise mirrored exactly when `scaleX(-1)` occurs in it |
| Style.MirrorMarkFound | contentScript.js:280 | a string written for a flipped overlay contains `scaleX(-1)` |
| Style.MirrorMarkAbsent | contentScript.js:280 | a string written for an unflipped overlay whose angle prints as a number does not contain `scaleX(-1)` |
| Style.MirrorRoundTrip | contentScript.js:651 | the mirror flag written into the transform is the flag the export reads back |
| Style.DecimalRunStopsAt | contentScript.js:276 | the run of angle characters ends where the angle text ends |
| Style.AngleRoundTrip | contentScript.js:674 | a decimal angle text written into the transform is the text the pattern captures |
| Style.ParseFormatted | contentScript.js:272-283 | the export reads a written transform back as the parsed angle text and the written mirror flag |
| Style.NoRotateNoToken | contentScript.js:276 | a string with no `ro` in it has no angle match |
| Style.ExponentAngleIsLost | contentScript.js:276-279 | an angle printed in exponent notation (`1e-7`) fails the pattern, and the export draws that overlay at angle 0 |
| Style.ExponentNoMatchAtStart | contentScript.js:276 | the pattern does not match at the start of the exponent-notation transform |
| Style.ExponentNoMatchAfter | contentScript.js:276 | the pattern does not match anywhere after the start of the exponent-notation transform |
| Compositor.OverlayDraw | contentScript.js:261-293 | an overlay is painted exactly when it has an image whose natural width is non-zero; its drawn width is the offset width times the horizontal scale; its top-left is the offsets times the scales; the rectangle is centred on the translated origin; its height keeps the image's natural proportions; angle and mirror are the parse of its transform |
| Compositor.ExportScale | contentScript.js:255-256 | the scale times the editing area's length is the base image's natural length |
| Compositor.DrawsOf | contentScript.js:259-294 | one overlay adds at most one draw; it adds one exactly when it holds an image with a non-zero natural width, and that draw is the overlay's OverlayDraw |
| Compositor.ToCanvas | contentScript.js:287-293 | a point of the overlay's own frame, mirrored, rotated and moved to the centre; the frame's origin lands on the draw's centre; Compositor.MirrorIsAxisReflection states what the mirror does |
| Compositor.HeightOverRatio | contentScript.js:268-269 | the drawn height, width times natural height over natural width, is the width divided by the natural ratio |
| Compositor.Plan | contentScript.js:259-295 | the overlay loop yields at most one draw per overlay |
| Compositor.Render | contentScript.js:242-259 | the canvas has the base image's natural size and at most one draw per overlay |
| Compositor.PlanAppend | contentScript.js:259 | the draws of a concatenated list are the draws of its parts in order |
| Compositor.PlanInOrder | contentScript.js:259 | when every overlay can be painted, the i-th draw is the i-th overlay's: list order is paint order |
| Compositor.ImagelessSkipped | contentScript.js:261-262 | an overlay without an image adds nothing and leaves the other draws as they are |
| Compositor.PlanSingle | contentScript.js:259-294 | a one-overlay list is planned as that overlay's draws |
| Compositor.ScaledSquare | contentScript.js:255-293 | the overlay at (50, 50), 100 wide, scaled by 2 is drawn as a 200 by 200 square centred at (200, 200) |
| Compositor.MirrorIsAxisReflection | contentScript.js:288-293 | with the mirror applied after the rotation, a mirrored point is the unmirrored one reflected across the overlay's rotated vertical axis through its centre: it moves back along the rotated horizontal direction by twice its distance along it |
| Compositor.MirrorIsNotCanvasMirror | contentScript.js:288-293 | at a quarter turn that differs from mirroring the canvas about the overlay's centre line |
| Collection.Without | contentScript.js:464 | the filtered list lacks the removed element, holds only elements of the list, and keeps every other element |
| Collection.WithoutAbsent | contentScript.js:464 | removing an element that is not in the list changes nothing |
| Collection.WithoutAppend | contentScript.js:464 | filtering distributes over concatenation, so the survivors keep their order |
| Collection.WithoutAt | contentScript.js:464 | in a list without repeats, removing the k-th element cuts out exactly that element |
| Collection.WithoutDistinct | contentScript.js:464 | filtering keeps a list without repeats |
| Collection.AppendFreshDistinct | contentScript.js:471 | pushing a new overlay keeps the list without repeats |
| EditorSession.TransformRoundTrip | contentScript.js:272-283 | the transform the controller writes is read back with the overlay's mirror flag, and with angle 0 when it was never written, or with the parsed decimal text of its angle |
| EditorSession.SnapshotOf | contentScript.js:261-283 | definition only: what the export reads from an overlay of the editor; stated by EditorSession.SnapshotOfReadsOverlay |
| EditorSession.SnapshotOfReadsOverlay | contentScript.js:261-272 | the export sees an image, the overlay's left, top and width, its natural size, and a transform string exactly when one was written |
| EditorSession.DrawReadsTransform | contentScript.js:271-283 | a loaded overlay's draw carries its own mirror flag, angle 0 when the transform was never written, and otherwise the parsed decimal text of its angle |
| EditorSession.DrawKeepsRatio | contentScript.js:265-269 | a loaded overlay's drawn width is its width times the horizontal scale, and its drawn height that width over its ratio |
| EditorSession.DrawSize | contentScript.js:265-269 | a loaded overlay's drawn width is its width times the horizontal scale, with the image's natural proportions |
| EditorSession.ExportMatchesOverlay | contentScript.js:261-293 | a loaded overlay is painted with its own mirror flag, its width times the horizontal scale, the height that width gives under its ratio, and its angle read back from the transform |
| EditorSession.FitScalesUniformly | contentScript.js:143-155 | the fitted editing area has the base image's proportions, so the export's two scales are equal |
| EditorSession.ExportIsUniformScaling | contentScript.js:255-293 | when both scales are equal, a loaded overlay is exported as its editor box scaled by that one factor, mirrored exactly when it is flipped |
| EditorSession.RenderOne | contentScript.js:255-259 | with equal scales, a one-overlay export is that overlay's draws at that scale |
| EditorSession.DrawScaled | contentScript.js:261-293 | at one scale k, a loaded overlay is drawn as its editor box times k, mirrored exactly when flipped |
| EditorSession.DrawPlaced | contentScript.js:265-288 | a loaded overlay's draw has its top-left corner at its editor position times the scales |
| EditorSession.DrawHeightScaled | contentScript.js:267-269 | a loaded overlay's drawn height is its editor height times the horizontal scale |
| EditorSession.PaintOverlays | contentScript.js:259-294 | the overlay loop yields exactly the compositor's plan: each paintable overlay's draw, in list order |
| EditorSession.PlanStep | contentScript.js:259-294 | one more overlay appends its draw, if any, to the end of the plan |
| EditorSession.Editor.constructor | contentScript.js:160-172 | opening the editor gives a list holding one fresh overlay in its initial state and no active gesture |
| EditorSession.Editor.BaseImageLoaded | contentScript.js:143-158 | the editing area takes the fitted size for the base image's natural size; the overlay list is unchanged |
| EditorSession.Editor.AddOverlay | contentScript.js:421-475 | the list gains one fresh overlay at its end, in the initial state for the old list length; the list keeps no repeats |
| EditorSession.Editor.RemoveOverlay | contentScript.js:461-465 | the list becomes its filter without the removed overlay and keeps no repeats |
| EditorSession.Editor.OverlayImageLoaded | contentScript.js:489-500 | a listed overlay's new state is `Loaded` of its old state |
| EditorSession.Editor.MouseDownBody | contentScript.js:627-645 | the pressed overlay becomes the one holding the document handlers and starts a drag |
| EditorSession.Editor.MouseDownCorner | contentScript.js:535-566 | the pressed overlay becomes the one holding the document handlers and starts a resize |
| EditorSession.Editor.MouseDownRotate | contentScript.js:655-682 | the pressed overlay becomes the one holding the document handlers and starts a rotation |
| EditorSession.Editor.MouseMove | contentScript.js:545-561 | only the overlay holding the document handlers reacts to a move |
| EditorSession.Editor.MouseUp | contentScript.js:562-565 | a release ends the active overlay's gesture and clears the document handlers |
| EditorSession.Editor.FlipClick | contentScript.js:648-652 | a flip click toggles that overlay's mirror flag |
| EditorSession.Editor.Export | contentScript.js:242-295 | the export loop produces exactly the frame the compositor specifies for the current overlays, in list order |
| Selector.Lower | contentScript.js:6 | every ASCII capital becomes its small letter and nothing else changes |
| Selector.TrimStart | contentScript.js:8 | drops exactly the leading white space |
| Selector.TrimEnd | contentScript.js:8 | drops exactly the trailing white space |
| Selector.Trim | contentScript.js:8 | definition only: trailing white space dropped after the leading; stated by Selector.TrimBothEnds |
| Selector.TrimBothEnds | contentScript.js:8 | the trimmed text is no longer than the text, neither starts nor ends with white space, and is empty exactly when the text is white space only |
| Selector.Collapse | contentScript.js:8 | the result holds no white space, is no longer than its input, and equals the input when that has no white space |
| Selector.Segment | contentScript.js:6-8 | definition only: the lower-cased name, then `#id`, else `.` and the collapsed classes, else nothing; stated by Selector.ClassPartHasNoSpace, Selector.BlankClassLeavesDot and Selector.IdShadowsClasses |
| Selector.Acc | contentScript.js:9-10 | definition only: each visited element puts its segment, and a `>` when the path is not empty, in front of the path; stated by Selector.AccIsRootFirstJoin |
| Selector.ElementRun | contentScript.js:5 | the walk visits exactly the leading run of element nodes |
| Selector.UniqueSelector | contentScript.js:2-13 | the walk's result is the path accumulated over the leading run of elements of the parent chain |
| Selector.AccIsRootFirstJoin | contentScript.js:9 | the path is the elements' segments from the outermost ancestor down to the element, joined with `>` |
| Selector.ClassPartHasNoSpace | contentScript.js:8 | the class part of a segment holds no white space |
| Selector.BlankClassLeavesDot | contentScript.js:8 | for an element without id, a non-empty class attribute of white space only gives the segment name followed by a lone dot |
| Selector.IdShadowsClasses | contentScript.js:7-8 | an element with an id gets `name#id` whatever its classes are |
| Selector.CollapseRun | contentScript.js:8 | a run of white space between plain text and text that does not start with white space becomes exactly one dot; nothing else is removed |
| Selector.CollapseKeepsPlain | contentScript.js:8 | text without white space is copied as it is, whatever follows it |
| Selector.CollapseRunAtStart | contentScript.js:8 | a run of white space at the start becomes one dot |
| Selector.SpacesTrimmed | contentScript.js:8 | trimming a run of white space leaves exactly the text after it |
| Selector.CollapseExample | contentScript.js:8 | `a  b` becomes `a.b` |

## Left out

- The search for the post image and the comment area in the host page, the
  reply-button injection and the MutationObserver: they only read the host
  page's DOM.
- Building the modal, its styling, the close button and fetching the sticker
  file: these are presentation only.
- The clipboard copy, `toBlob`, the File/DataTransfer upload into the reply box,
  the paste-image button and `alert`: these are browser I/O. The paste button's
  effect on the geometry is a new base-image load, which
  `EditorSession.Editor.BaseImageLoaded` covers.
- Pixels and the loading of images are not modelled.
  - The export's result is the list of draws the canvas receives.
  - An image load is an event that carries the natural size.
  - A sticker image that is already cached and sized when its overlay is set
    up (contentScript.js:496-497) is modelled as an immediate load event.
- `Math.atan2`, number printing and `parseFloat` are uninterpreted parameters.
  Floating-point rounding, and the NaN that `parseFloat` gives for text that is
  not a number, are not modelled.
- Controller.GrabRotate: takes the angle at the press from the overlay's
  numeric angle. The source re-parses it from the transform string
  (contentScript.js:662-666). The two agree whenever the angle prints as
  decimal text (`Style.AngleRoundTrip`, `Style.ParseFormatted`). An angle
  printed in exponent notation would be read as 0 by the source
  (`Style.ExponentAngleIsLost` shows the export's side of this).
- Style.ParseTransform: the number parsed from the angle text is whatever
  `parseNumber` gives. Which texts JavaScript prints in exponent notation is
  left open.
- Compositor.OverlayDraw: a natural width of 0 is modelled as "not painted".
  In the source the height is Infinity or NaN and the canvas ignores the
  `drawImage`.
- Compositor.Render: a zero-sized editing area is modelled as "nothing
  painted". The source's scales are Infinity or NaN there.
- Geometry.FitContainer: the NaN and Infinity cases of a base image with a
  zero natural side are given the sizes the browser ends up with, not traced
  through CSS parsing.
- The `if (!container) return` guards (contentScript.js:423, 481): the
  editor's own elements always exist while the editor is open.
- The body press's `e.target !== overlayContainer` test (contentScript.js:628):
  `BodyDown` is a press whose target is the overlay container itself.
- EditorSession.Editor.OverlayImageLoaded: requires the overlay to be listed.
  An image that finishes loading after its overlay was removed changes nothing
  the export can see.
- The `dragging` and `rotating` flags (contentScript.js:629, 657) are subsumed
  by the gesture state: a mouse-move handler exists only while its gesture
  runs.
- Selector.Lower: lower-cases ASCII letters only. HTML element names are
  ASCII.
- Geometry.FitContainer, EditorSession.FitScalesUniformly,
  Compositor.OverlayDraw: the browser's rounding of `offsetWidth`,
  `offsetHeight`, `offsetLeft` and `offsetTop` to whole pixels
  (contentScript.js:255-256, 265-267, 540-543, 559, 630-631) is not modelled.
  The equal export scales and the exact ratio lock are facts about real
  numbers: a 1000 by 333 base image gives a 500 by 166.5 editing area, whose
  rounded height makes the vertical scale differ from the horizontal one.
- Controller.Step, Controller.RunKeepsInvariant, Controller.ReachableOverlays,
  Controller.Moved, Controller.Overlay.MouseMove,
  EditorSession.Editor.MouseMove: the event machine uses the corrected resize
  move `Controller.ResizeMove`. Their invariants hold for the program as
  evidently intended, not for contentScript.js:544-556 as written (see
  "## Findings").
- Reading `style.transform` back (contentScript.js:272, 662) is taken to give
  the string written at contentScript.js:651 and 674 verbatim. The browser's
  re-serialization of the CSS value is not modelled.

## Findings

| source | as written | input that shows it | evidently intended | confidence | as-written member | corrected member |
|---|---|---|---|---|---|---|
| contentScript.js:544-556 | a corner resize reads the sticker's aspect ratio once, at the press, and divides every new width by that captured value | press the south-east handle of a new sticker before its image has loaded (ratio 1), let a 200 by 100 image load mid-gesture (box 100 by 50, ratio 2), then move the pointer: the box becomes 100 by 100 while the ratio is 2 | the height follows the sticker's current ratio, so the box keeps the image's proportions | low: the press must land before the sticker image loads; not executed | Controller.ResizeMoveAsWritten (shown by Controller.StaleAspectBreaksLock) | Controller.ResizeMove |
