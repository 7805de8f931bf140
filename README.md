# AI-Canvas drawing page, modelled in Dafny

A Dafny model of the logic in `src/pages/Home.jsx` of AI-Canvas. On that page
the user draws an expression on a canvas and presses Solve. A calculation
service returns a batch of `{expr, result, assign}` items. The page merges the
assignments into its variable dictionary. It finds the bounding box of the ink
and anchors the results at the box's centroid. It schedules each item to
be shown, after a one-second timer, as a draggable LaTeX entry.

The model has these modules:

- `InkBox` (`ink_box.dfy`): the nested scan over the RGBA buffer, written as a
  method with loop invariants. It is proved against `IsInkBox`, which says:
  - the box covers every pixel whose alpha byte is above 0;
  - each bound is reached by an ink pixel;
  - a blank canvas keeps the initial box `width, height, 0, 0`.

  It also holds the centroid `Anchor` and the lemmas about it. Lemma
  `AlphaIndexInBounds` shows that the alpha index is always inside the buffer.
- `Coordinates` (`coordinates.dfy`): `getEventCoordinates` for mouse and touch events.
- `Latex` (`latex.dfy`): the entry `\(\LARGE{expr = answer}\)` and how to read
  it back.
- `Variables` (`variables.dfy`): the dictionary update of one response batch,
  as the code performs it, next to a reference definition that applies the
  assignments one after another.
- `Layout` (`layout.dfy`): the mobile breakpoint `innerWidth <= 768`.
- `HomePage` (`home.dfy`): class `Home`, whose fields are the component's state
  (`isDrawing`, `tool`, `color`, `strokeSize`, `eraserSize`, `dictOfVars`,
  `result`, `latexPosition`, `latexExpression`, `showError`, `isMobile`). It
  also has these fields:
  - the Solve button's `disabled` flag;
  - the queue of reveal timers that have not fired yet;
  - the 2D context's style;
  - a log of the path and clear calls made on the context.

  Its methods are the page's handlers. Each says in its `ensures` what it does
  to the state, and its `modifies` clause names the only fields it may change.

## Where the code and the intended design differ

The model follows the code. These are the points where the code differs from
what the page is meant to do.

- The dictionary merge builds every write as `{...dictOfVars, [expr]: result}`
  from the dictionary the batch started with (`src/pages/Home.jsx:250-257`). So
  only the last assignment of a batch survives.
  - `Variables.BatchAssign` models that.
  - `Variables.SequentialAssign` is the intended last-write-wins fold.
  - `Variables.BatchIsSequentialForOneAssignment` proves the two agree when a
    batch has at most one assignment.
  - `Variables.EarlierAssignmentIsDropped` gives a two-assignment batch on which
    they differ.
- Every item of a successful batch is scheduled for reveal, assignments
  included.
  - Every item uses the same 1000 ms delay, so the reveals are not staggered.
  - They fire in the order they were scheduled.
- Reset does not cancel reveals that are still pending
  (`HomePage.RevealAfterReset`).
- No result position is kept per entry. One shared `latexPosition` is set by
  Solve and by the end of every drag, and it is the default position of the
  entries rendered after that.
- A blank canvas is submitted like any other. Its box stays at
  `width, height, 0, 0` and the anchor is the canvas centre.
- A canvas of width or height 0 is submitted too. The assignments are merged
  first; then `getImageData` throws, so the error banner is shown and nothing
  is anchored or scheduled (`HomePage.EmptyCanvasShowsError`).
- The `finally` that re-enables the Solve button is inside `if (canvas)`, so
  without a canvas the button would stay disabled. The canvas is always
  rendered, so after mount this case does not arise; the model keeps it as
  the `hasCanvas` flag.

## Model

| member | source | states |
|---|---|---|
| `InkBox.ScanInkBox` | src/pages/Home.jsx:259-273 | The row-by-row scan returns a box whose bounds stay within `[0, width] x [0, height]` and which `IsInkBox` describes. The box covers every pixel whose alpha byte exceeds 0, and each bound is attained by an ink pixel. With no ink the box is `width, height, 0, 0`. |
| `InkBox.AlphaIndexInBounds` | src/pages/Home.jsx:263-266 | For every pixel of the canvas, the alpha index `(y*width + x)*4 + 3` is below `4*width*height`. |
| `InkBox.InkBoxUnique` | src/pages/Home.jsx:261-273 | The pixels determine the scan's box: two boxes that both satisfy `IsInkBox` are equal. |
| `InkBox.Anchor` | src/pages/Home.jsx:275-276 | The anchor lies midway between the left and right edges of the box, and midway between the top and bottom edges. |
| `InkBox.AnchorInsideInk` | src/pages/Home.jsx:261-276 | When there is ink, the anchor lies within the box, and the box lies within the canvas. |
| `InkBox.AnchorOfBlankCanvas` | src/pages/Home.jsx:261-276 | On a blank canvas the box is `width, height, 0, 0` and the anchor is `(width/2, height/2)`. |
| `InkBox.AnchorOnCanvas` | src/pages/Home.jsx:261-276 | Whatever the pixels, the anchor lies in `[0, width] x [0, height]`. |
| `InkBox.SingleInkPixel` | src/pages/Home.jsx:263-276 | With exactly one ink pixel, the box is that pixel and the anchor is on it. |
| `Coordinates.EventCoordinates` | src/pages/Home.jsx:155-170 | A mouse event yields its offset. A touch event yields a point unless both of its touch lists are empty, which is exactly when the source throws. |
| `Coordinates.TouchAgreesWithMouse` | src/pages/Home.jsx:155-170 | A touch at canvas offset (ox, oy) resolves to the same point as a mouse event with that offset. |
| `Coordinates.TouchIsTranslationInvariant` | src/pages/Home.jsx:158-163 | Moving the canvas and the touch together by the same amount leaves the resolved point unchanged. |
| `Coordinates.ActiveTouchWins` | src/pages/Home.jsx:158-163 | When a touch is active, the first active touch is used and the changed touches are ignored. |
| `Latex.LatexOf` | src/pages/Home.jsx:35 | An entry starts with `\(\LARGE{`, continues with the expression, and ends with `}\)`; its length is that of its five parts. |
| `Latex.BodyOfLatex` | src/pages/Home.jsx:34-35 | Each entry is `expression = answer`, wrapped in `\(\LARGE{` and `}\)`, and the text inside can be read back. |
| `Latex.AnswerIsRecoverable` | src/pages/Home.jsx:34-35 | For the same expression, different answers give different entries. |
| `Variables.BatchAssign` | src/pages/Home.jsx:250-257 | The dictionary after a batch is either the pre-batch dictionary or that dictionary with one assignment item's `expr` bound to its `result`. It is unchanged when the batch has no assignment. |
| `Variables.LastAssignmentWins` | src/pages/Home.jsx:250-257 | After a batch, the dictionary is the pre-batch dictionary with only the batch's last assignment applied. |
| `Variables.BatchIsSequentialForOneAssignment` | src/pages/Home.jsx:250-257 | With at most one assignment in the batch, the merge equals assigning the items one after another. |
| `Variables.EarlierAssignmentIsDropped` | src/pages/Home.jsx:252-255 | A batch assigning `x` and then `y` leaves only `y` bound, whereas the sequential fold keeps both. |
| `Variables.AssignmentThenExpression` | src/pages/Home.jsx:250-257 | The batch `x = 2` followed by `x + 3` binds `x` to 2 and nothing else. |
| `Layout.IsMobile` | src/pages/Home.jsx:87 | The layout is mobile when the viewport is at most 768 pixels wide. |
| `Layout.BreakpointIsInclusive` | src/pages/Home.jsx:87 | A width of exactly 768 is mobile and 769 is not. |
| `HomePage.Home.constructor` | src/pages/Home.jsx:12-25 | The initial state: not drawing, pencil, red, sizes 3 and 10, empty dictionary and entry list, no result, anchor (10, 200), no error. |
| `HomePage.Home.StartDrawing` | src/pages/Home.jsx:172-193 | With a canvas and a readable point, it opens a path at the point and sets `isDrawing`. The eraser selects `destination-out` at `eraserSize`. Otherwise it selects `source-over` with the current colour at `strokeSize`. In every other case nothing changes. |
| `HomePage.Home.Draw` | src/pages/Home.jsx:195-211 | It changes nothing unless `isDrawing` is true and a canvas exists. Otherwise the pencil re-applies its colour, and the path gets exactly one segment to the event's point followed by a stroke. |
| `HomePage.Home.StopDrawing` | src/pages/Home.jsx:213-215 | `isDrawing` becomes false, and nothing else changes. |
| `HomePage.Home.SelectTool` | src/pages/Home.jsx:364-372 | The chosen tool becomes active, and nothing else changes. |
| `HomePage.Home.PickSwatch` | src/pages/Home.jsx:413-416 | The swatch's colour is selected and the tool is forced to the pencil. |
| `HomePage.Home.SliderValue` | src/pages/Home.jsx:385 | The slider shows the active tool's size, which is within 1..20. |
| `HomePage.Home.SetSize` | src/pages/Home.jsx:383-389 | Only the active tool's size is set to the slider value. The other size is unchanged and every size stays within 1..20. |
| `HomePage.Home.CheckMobile` | src/pages/Home.jsx:86-88 | `isMobile` becomes `innerWidth <= 768`, and nothing else changes. |
| `HomePage.Home.MergeAssignments` | src/pages/Home.jsx:250-257 | The dictionary after the merge loop is `BatchAssign` of the one before it. |
| `HomePage.Home.Schedule` | src/pages/Home.jsx:279-286 | Every item of the batch, assignments included, is appended to the pending reveals in order, and the earlier ones are kept. |
| `HomePage.Home.RunRoute` | src/pages/Home.jsx:223-296 | Without a canvas, the button is left disabled. On failure, the error banner is shown and the dictionary, anchor and pending reveals are unchanged. On success, the dictionary becomes `BatchAssign` of the old one. If the canvas then has width or height 0, the image read throws: the error banner is shown and the anchor and pending reveals are unchanged. Otherwise the anchor is the centroid of the scanned box, and every item, assignments included, is appended to the pending reveals in order. The button ends up enabled whenever a canvas exists. |
| `HomePage.Home.RevealNext` | src/pages/Home.jsx:34-60 | When the oldest pending timer fires, its solution becomes `result` and its LaTeX entry is appended after the earlier ones. The canvas is cleared. |
| `HomePage.Home.StopDrag` | src/pages/Home.jsx:518 | The shared result position becomes the drop position. |
| `HomePage.Home.Reset` | src/pages/Home.jsx:62-70 | The canvas, the entry list, the current result and the dictionary are cleared. The pending reveals are kept. |
| `HomePage.RevealAfterReset` | src/pages/Home.jsx:279-286 | When a reset comes between Solve and the timer, the entry still appears on the cleared page. |
| `HomePage.EmptyCanvasShowsError` | src/pages/Home.jsx:250-289 | With a canvas of width 0, the batch `x = 2`, `x + 3` binds `x`, shows the error, and schedules nothing; the anchor keeps its initial value. |
| `HomePage.AssignmentIsRevealedToo` | src/pages/Home.jsx:250-286 | For `x = 2` then `x + 3`, only `x` is bound, and both items are shown in order, the assignment included. |

## Left out

- The request to `/calculate`, `response.json()` and `canvas.toDataURL` are network and browser I/O. `RunRoute` takes the parsed reply as a parameter, and the image and `dictOfVars` that the request carries are not modelled.
- `getImageData` is a browser call. `RunRoute` takes the pixel buffer and the canvas size as parameters.
- The canvas drawing calls are a browser API. They are recorded as a log of `BeginPath`, `MoveTo`, `LineTo`, `Stroke` and `ClearRect`, and no pixels are rasterised.
- The 1000 ms reveal timers and the 3000 ms auto-dismiss of the error banner are timers. A reveal is modelled as `RevealNext` firing the oldest pending one. The banner's dismissal is not modelled.
- The Solve button is disabled across `await`, but the model is atomic. `RunRoute` keeps only the flag's final value.
- The resize effect and MathJax loading and typesetting are browser effects and a foreign library.
- Dark mode, social links and the visibility of the colour picker are presentational.
- `LazyBrush` is constructed but never used.
- `src/components/Button.jsx` and `src/components/DraggableLatex.jsx` are thin wrappers with no logic.
- Coordinates and sizes are floats in the source. They are integers in the model, and the centroid is a real number.
- `Variables.BatchAssign`: results that are numbers are taken as their display strings, since number formatting is not modelled.
- React applies state updates on the next render. The model applies each handler's updates at once.
- HomePage.Home.RevealNext: assumes React renders between two timer firings. The timers of one batch share the same 1000 ms delay and may run back to back; if React batches their `setResult` calls into one render, the `[result]` effect runs once and only the last item is shown. The React version is not part of this model, so this is not settled.
- HomePage.AssignmentIsRevealedToo: rests on the same assumption of one render per timer firing.
- HomePage.Home.RunRoute: the `solveDisabled` flag assumes `solveButtonRef` reaches the DOM button. The ref is passed to the function component `Button` (src/components/Button.jsx), which does not forward it; before React 19 the ref stays null and the button is never disabled. A missing canvas (`hasCanvas` false) cannot occur after mount, because the canvas is always rendered.
- Coordinates.EventCoordinates: assumes the global `TouchEvent` is defined. Where it is not (browsers without touch support), `instanceof TouchEvent` throws a ReferenceError for every event, so no stroke is drawn at all.
