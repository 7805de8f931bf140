/**
 * The state of the drawing page and its handlers: drawing on the canvas,
 * the tool, colour and size controls, the evaluation round trip of `runRoute`,
 * the delayed reveal of each result and the reset.
 */
module HomePage {
  import opened Common
  import opened Coordinates
  import opened InkBox
  import opened Latex
  import opened Variables
  import Layout

  datatype Tool = Pencil | Eraser

  /** `globalCompositeOperation`: the pen paints over, the eraser cuts ink out. */
  datatype Composite = SourceOver | DestinationOut

  /** The path-building and clearing calls made on the canvas's 2D context, in order. */
  datatype CanvasOp = BeginPath | MoveTo(p: Point) | LineTo(p: Point) | Stroke | ClearRect

  /** The calculation service's reply: a thrown request, bad status or unreadable body, or its `data` list. */
  datatype Response = Failure | Success(data: seq<Item>)

  /** The `result` state: one expression and its answer, ready to display. */
  datatype Solution = Solution(expression: string, answer: string)

  const InitialColor: string := "rgb(255, 0, 0)"
  /** Bounds of the size slider. */
  const SizeMin: int := 1
  const SizeMax: int := 20

  class Home {
    // drawing and tool state
    var isDrawing: bool
    var tool: Tool
    var color: string
    var strokeSize: int
    var eraserSize: int
    // evaluation bookkeeping
    var dictOfVars: Dict
    var result: Option<Solution>
    var latexPosition: Position
    var latexExpression: seq<string>
    var showError: bool
    var isMobile: bool
    var solveDisabled: bool
    /** Reveals scheduled by `runRoute` whose one-second timer has not fired yet, in firing order. */
    var pending: seq<Solution>
    // the canvas and its 2D context
    const hasCanvas: bool
    var composite: Composite
    var strokeStyle: string
    var lineWidth: int
    var ops: seq<CanvasOp>

    /** The sizes stay within the slider's range, and so does the line width taken from them. */
    ghost predicate Valid()
      reads this
    {
      && SizeMin <= strokeSize <= SizeMax
      && SizeMin <= eraserSize <= SizeMax
      && SizeMin <= lineWidth <= SizeMax
    }

    /** The component's initial state; the canvas context starts with its default style. */
    constructor (canvasAttached: bool)
      ensures Valid() && hasCanvas == canvasAttached
      ensures !isDrawing && tool == Pencil && color == InitialColor && strokeSize == 3 && eraserSize == 10
      ensures dictOfVars == map[] && result == None && latexPosition == Position(10.0, 200.0)
      ensures latexExpression == [] && pending == []
      ensures !showError && !isMobile && !solveDisabled
      ensures composite == SourceOver && strokeStyle == "#000000" && lineWidth == 1 && ops == []
    {
      hasCanvas := canvasAttached;
      isDrawing, tool, color, strokeSize, eraserSize := false, Pencil, InitialColor, 3, 10;
      dictOfVars, result, latexPosition := map[], None, Position(10.0, 200.0);
      latexExpression, pending := [], [];
      showError, isMobile, solveDisabled := false, false, false;
      composite, strokeStyle, lineWidth, ops := SourceOver, "#000000", 1, [];
    }

    /** Pen down: open a path at the event's point and take the compositing and width of the active tool. */
    method StartDrawing(e: InputEvent, rect: Rect)
      requires Valid()
      modifies this`isDrawing, this`composite, this`strokeStyle, this`lineWidth, this`ops
      ensures Valid()
      ensures var c := EventCoordinates(e, rect);
        if hasCanvas && c.Some? then
          && isDrawing
          && ops == old(ops) + [BeginPath, MoveTo(c.value)]
          && (tool == Eraser ==> composite == DestinationOut && lineWidth == eraserSize && strokeStyle == old(strokeStyle))
          && (tool == Pencil ==> composite == SourceOver && lineWidth == strokeSize && strokeStyle == color)
        else
          && isDrawing == old(isDrawing) && ops == old(ops) && composite == old(composite)
          && strokeStyle == old(strokeStyle) && lineWidth == old(lineWidth)
    {
      if hasCanvas {
        var c := EventCoordinates(e, rect);
        if c.Some? {
          ops := ops + [BeginPath, MoveTo(c.value)];
          if tool == Eraser {
            composite := DestinationOut;
            lineWidth := eraserSize;
          } else {
            composite := SourceOver;
            strokeStyle := color;
            lineWidth := strokeSize;
          }
          isDrawing := true;
        }
      }
    }

    /**
     * Mouse or touch move: while drawing, extend the path to the event's point and stroke it
     * at once. The pencil re-applies the colour before the coordinates are
     * read, so a touch event without touches still leaves that behind.
     */
    method Draw(e: InputEvent, rect: Rect)
      modifies this`strokeStyle, this`ops
      ensures !(old(isDrawing) && hasCanvas) ==> strokeStyle == old(strokeStyle) && ops == old(ops)
      ensures old(isDrawing) && hasCanvas ==>
        && strokeStyle == (if tool == Pencil then color else old(strokeStyle))
        && var c := EventCoordinates(e, rect);
           ops == if c.Some? then old(ops) + [LineTo(c.value), Stroke] else old(ops)
    {
      if !isDrawing {
        return;
      }
      if hasCanvas {
        if tool == Pencil {
          strokeStyle := color;
        }
        var c := EventCoordinates(e, rect);
        if c.Some? {
          ops := ops + [LineTo(c.value), Stroke];
        }
      }
    }

    /** Mouse up or out, touch end or cancel: the stroke ends. */
    method StopDrawing()
      modifies this`isDrawing
      ensures !isDrawing
    {
      isDrawing := false;
    }

    /** The pencil and eraser buttons. */
    method SelectTool(t: Tool)
      modifies this`tool
      ensures tool == t
    {
      tool := t;
    }

    /** Clicking a colour swatch selects that colour and switches back to the pencil. */
    method PickSwatch(swatch: string)
      modifies this`color, this`tool
      ensures color == swatch && tool == Pencil
    {
      color := swatch;
      tool := Pencil;
    }

    /** The value the size slider shows: the size of the active tool. */
    function SliderValue(): (v: int)
      reads this
      requires Valid()
      ensures SizeMin <= v <= SizeMax
      ensures v == strokeSize || v == eraserSize
    {
      if tool == Pencil then strokeSize else eraserSize
    }

    /** Moving the size slider, whose range input only yields 1 to 20, sets the active tool's size only. */
    method SetSize(value: int)
      requires Valid() && SizeMin <= value <= SizeMax
      modifies this`strokeSize, this`eraserSize
      ensures Valid() && SliderValue() == value
      ensures tool == Pencil ==> strokeSize == value && eraserSize == old(eraserSize)
      ensures tool == Eraser ==> eraserSize == value && strokeSize == old(strokeSize)
    {
      if tool == Pencil {
        strokeSize := value;
      } else {
        eraserSize := value;
      }
    }

    /** On mount and on every window resize: switch to the mobile layout at the breakpoint. */
    method CheckMobile(innerWidth: int)
      modifies this`isMobile
      ensures isMobile == Layout.IsMobile(innerWidth)
    {
      isMobile := Layout.IsMobile(innerWidth);
    }

    /** The merge loop of Solve: each assignment writes over the dictionary as it was before the batch. */
    method MergeAssignments(data: seq<Item>)
      modifies this`dictOfVars
      ensures dictOfVars == BatchAssign(old(dictOfVars), data)
    {
      var pre := dictOfVars;
      var i := 0;
      while i < |data|
        invariant 0 <= i <= |data|
        invariant dictOfVars == BatchAssign(pre, data[..i])
      {
        assert data[..i + 1][..i] == data[..i];
        if data[i].assign {
          dictOfVars := pre[data[i].expr := data[i].result];
        }
        i := i + 1;
      }
      assert data[..|data|] == data;
    }

    /** The scheduling loop of Solve: one timer per item, in order, assignments included. */
    method Schedule(data: seq<Item>)
      modifies this`pending
      ensures |pending| == |old(pending)| + |data|
      ensures pending[..|old(pending)|] == old(pending)
      ensures forall k :: 0 <= k < |data| ==> pending[|old(pending)| + k] == Solution(data[k].expr, data[k].result)
    {
      var j := 0;
      while j < |data|
        invariant 0 <= j <= |data|
        invariant |pending| == |old(pending)| + j
        invariant pending[..|old(pending)|] == old(pending)
        invariant forall k :: 0 <= k < j ==> pending[|old(pending)| + k] == Solution(data[k].expr, data[k].result)
      {
        pending := pending + [Solution(data[j].expr, data[j].result)];
        j := j + 1;
      }
    }

    /**
     * The Solve button. The reply is a parameter and `image` is the canvas's
     * `getImageData` buffer, `width` by `height` pixels. Without a canvas the
     * button is disabled and stays so. A failed request shows the error and
     * changes nothing else. A successful one merges the assignments; then, on
     * a canvas with no pixels, `getImageData` throws and the error is shown;
     * otherwise it anchors the results at the ink's centroid and schedules
     * every item, assignments included, for reveal.
     */
    method RunRoute(response: Response, image: array<byte>, width: nat, height: nat)
      requires Valid() && image.Length == width * height * 4
      modifies this`solveDisabled, this`showError, this`dictOfVars, this`latexPosition, this`pending
      ensures Valid()
      ensures solveDisabled == !hasCanvas
      ensures showError == (old(showError) || (hasCanvas && (response.Failure? || width == 0 || height == 0)))
      ensures dictOfVars == if hasCanvas && response.Success? then BatchAssign(old(dictOfVars), response.data)
                            else old(dictOfVars)
      ensures !(hasCanvas && response.Success? && width > 0 && height > 0) ==>
        latexPosition == old(latexPosition) && pending == old(pending)
      ensures hasCanvas && response.Success? && width > 0 && height > 0 ==>
        && (exists b :: IsInkBox(image[..], width, height, b) && latexPosition == Anchor(b))
        && |pending| == |old(pending)| + |response.data|
        && pending[..|old(pending)|] == old(pending)
        && forall k :: 0 <= k < |response.data| ==>
             pending[|old(pending)| + k] == Solution(response.data[k].expr, response.data[k].result)
    {
      solveDisabled := true;
      if hasCanvas {
        match response {
          case Failure =>
            showError := true;
          case Success(data) =>
            MergeAssignments(data);
            if width == 0 || height == 0 {
              // getImageData of an empty rectangle throws an IndexSizeError
              showError := true;
            } else {
              var box := ScanInkBox(image, width, height);
              latexPosition := Anchor(box);
              Schedule(data);
            }
        }
        solveDisabled := false;
      }
    }

    /**
     * The oldest pending timer fires: its solution becomes `result`, whose
     * effect appends the entry to the displayed list and clears the canvas.
     */
    method RevealNext()
      requires pending != []
      modifies this`pending, this`result, this`latexExpression, this`ops
      ensures pending == old(pending)[1..]
      ensures result == Some(old(pending)[0])
      ensures latexExpression == old(latexExpression) + [LatexOf(old(pending)[0].expression, old(pending)[0].answer)]
      ensures ops == if hasCanvas then old(ops) + [ClearRect] else old(ops)
    {
      var s := pending[0];
      pending := pending[1..];
      result := Some(s);
      latexExpression := latexExpression + [LatexOf(s.expression, s.answer)];
      if hasCanvas {
        ops := ops + [ClearRect];
      }
    }

    /** Dropping a dragged result moves the shared anchor to where it was dropped. */
    method StopDrag(p: Position)
      modifies this`latexPosition
      ensures latexPosition == p
    {
      latexPosition := p;
    }

    /**
     * The reset effect: clear the canvas, the displayed entries, the current
     * result and the dictionary. Timers already scheduled are not cancelled.
     */
    method Reset()
      modifies this`ops, this`latexExpression, this`result, this`dictOfVars
      ensures latexExpression == [] && result == None && dictOfVars == map[]
      ensures ops == if hasCanvas then old(ops) + [ClearRect] else old(ops)
      ensures pending == old(pending)
    {
      if hasCanvas {
        ops := ops + [ClearRect];
      }
      latexExpression := [];
      result := None;
      dictOfVars := map[];
    }
  }

  /** A reset between Solve and the reveal does not stop the reveal: the entry appears on the cleared page. */
  method RevealAfterReset() returns (h: Home)
    ensures h.latexExpression == [LatexOf("x+3", "5")] && h.dictOfVars == map[] && h.pending == []
  {
    h := new Home(true);
    var blank := new byte[4];
    h.RunRoute(Success([Item("x+3", "5", false)]), blank, 1, 1);
    h.Reset();
    h.RevealNext();
  }

  /** `x = 2` then `x + 3`: `x` is bound, and both items, the assignment too, are revealed in order. */
  method AssignmentIsRevealedToo() returns (h: Home)
    ensures h.dictOfVars == map["x" := "2"]
    ensures h.latexExpression == [LatexOf("x", "2"), LatexOf("x+3", "5")]
  {
    h := new Home(true);
    var blank := new byte[4];
    AssignmentThenExpression();
    h.RunRoute(Success([Item("x", "2", true), Item("x+3", "5", false)]), blank, 1, 1);
    h.RevealNext();
    h.RevealNext();
  }

  /** On a canvas with no pixels the assignments are merged, then the image read throws: error shown, nothing revealed. */
  method EmptyCanvasShowsError() returns (h: Home)
    ensures h.showError && h.dictOfVars == map["x" := "2"] && h.pending == []
    ensures h.latexPosition == Position(10.0, 200.0)
  {
    h := new Home(true);
    var none := new byte[0];
    AssignmentThenExpression();
    h.RunRoute(Success([Item("x", "2", true), Item("x+3", "5", false)]), none, 0, 5);
  }
}
