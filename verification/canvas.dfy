/** The drawing document of the notes screen and its handlers
    (starlus/app/notes.tsx:100-125, 168-264, 589-632), each handler one atomic update. */
module Canvas {
  import opened Geometry
  import Eraser
  import Slider

  /** The draw tool chosen in the tool bar. */
  datatype Tool = PenTool | HighlighterTool | ShapesTool | TextTool

  /** Tool selection and the per-tool styles that new points are stamped with. */
  datatype Tools = Tools(
    selected: Tool,
    penColor: string,
    penWidth: int,
    highlighterColor: string,
    highlighterWidth: int,
    shapeColor: string,
    shapeWidth: int)

  /** The strokes of one canvas: committed paths, the path being drawn, and history. */
  datatype Document = Document(
    committed: seq<Path>,
    current: Path,
    isDrawing: bool,
    undoStack: seq<Path>,
    redoStack: seq<Path>,
    eraserActive: bool)

  /** The state when the screen mounts. */
  const InitialTools := Tools(PenTool, "#000000", 2, "rgba(255, 255, 0, 0.5)", 20, "#000000", 2)
  const EmptyDocument := Document([], [], false, [], [], false)

  /** A path is being drawn exactly while `isDrawing` holds, and no stored path is empty. */
  predicate Valid(d: Document)
  {
    && (d.isDrawing <==> d.current != [])
    && AllNonEmpty(d.committed)
    && AllNonEmpty(d.undoStack)
    && AllNonEmpty(d.redoStack)
  }

  /** The point a pen or highlighter touch at (x, y) lays down; no point for shapes or text. */
  function Stamp(tools: Tools, x: real, y: real): (r: Option<Point>)
    ensures r.None? <==> tools.selected == ShapesTool || tools.selected == TextTool
    ensures r.Some? ==> r.value.x == x && r.value.y == y
    ensures r.Some? && r.value.kind == Pen ==>
      tools.selected == PenTool && r.value.color == tools.penColor && r.value.width == tools.penWidth
    ensures r.Some? && r.value.kind == Highlighter ==>
      tools.selected == HighlighterTool && r.value.color == tools.highlighterColor
      && r.value.width == tools.highlighterWidth
  {
    match tools.selected
    case PenTool => Some(Point(x, y, tools.penColor, tools.penWidth, Pen))
    case HighlighterTool => Some(Point(x, y, tools.highlighterColor, tools.highlighterWidth, Highlighter))
    case _ => None
  }

  /** A touch goes down on the canvas. */
  function Start(d: Document, tools: Tools, x: real, y: real): (r: Document)
    ensures r.undoStack == d.undoStack && r.redoStack == d.redoStack && r.eraserActive == d.eraserActive
    ensures d.eraserActive ==>
      r.committed == Eraser.Erase(d.committed, x, y) && r.current == d.current && r.isDrawing == d.isDrawing
    ensures !d.eraserActive ==> r.committed == d.committed
    ensures !d.eraserActive && (tools.selected == ShapesTool || tools.selected == TextTool) ==> r == d
    ensures !d.eraserActive && tools.selected == PenTool ==>
      r.isDrawing && r.current == [Point(x, y, tools.penColor, tools.penWidth, Pen)]
    ensures !d.eraserActive && tools.selected == HighlighterTool ==>
      r.isDrawing && r.current == [Point(x, y, tools.highlighterColor, tools.highlighterWidth, Highlighter)]
  {
    if d.eraserActive then d.(committed := Eraser.Erase(d.committed, x, y))
    else
      match Stamp(tools, x, y)
      case None => d
      case Some(p) => d.(current := [p], isDrawing := true)
  }

  /** The touch moves. */
  function Move(d: Document, tools: Tools, x: real, y: real): (r: Document)
    ensures r.undoStack == d.undoStack && r.redoStack == d.redoStack
    ensures r.eraserActive == d.eraserActive && r.isDrawing == d.isDrawing
    ensures d.eraserActive ==> r.committed == Eraser.Erase(d.committed, x, y) && r.current == d.current
    ensures !d.eraserActive ==> r.committed == d.committed
    ensures !d.eraserActive && (!d.isDrawing || tools.selected == ShapesTool || tools.selected == TextTool) ==> r == d
    ensures !d.eraserActive && d.isDrawing && tools.selected == PenTool ==>
      r.current == d.current + [Point(x, y, tools.penColor, tools.penWidth, Pen)]
    ensures !d.eraserActive && d.isDrawing && tools.selected == HighlighterTool ==>
      r.current == d.current + [Point(x, y, tools.highlighterColor, tools.highlighterWidth, Highlighter)]
  {
    if d.eraserActive then d.(committed := Eraser.Erase(d.committed, x, y))
    else if !d.isDrawing then d
    else
      match Stamp(tools, x, y)
      case None => d
      case Some(p) => d.(current := d.current + [p])
  }

  /** The touch is lifted: a path being drawn becomes the newest committed path. */
  function Release(d: Document): (r: Document)
    ensures d.eraserActive || !d.isDrawing ==> r == d
    ensures !d.eraserActive && d.isDrawing ==>
      && r.committed == d.committed + [d.current]
      && r.current == [] && !r.isDrawing
      && r.undoStack == d.undoStack && r.redoStack == d.redoStack
      && r.eraserActive == d.eraserActive
  {
    if d.eraserActive then d
    else if !d.isDrawing then d
    else d.(committed := d.committed + [d.current], current := [], isDrawing := false)
  }

  /** The undo button: the newest committed path moves onto the undo stack and the redo
      stack is emptied. */
  function Undo(d: Document): (r: Document)
    ensures d.committed == [] ==> r == d
    ensures d.committed != [] ==>
      && r.committed + [d.committed[|d.committed| - 1]] == d.committed
      && r.undoStack == d.undoStack + [d.committed[|d.committed| - 1]]
      && r.redoStack == []
      && r.current == d.current && r.isDrawing == d.isDrawing && r.eraserActive == d.eraserActive
  {
    if d.committed == [] then d
    else
      var last := d.committed[|d.committed| - 1];
      d.(undoStack := d.undoStack + [last], redoStack := [], committed := d.committed[..|d.committed| - 1])
  }

  /** The redo button: the top of the undo stack is committed again and also pushed onto
      the redo stack. */
  function Redo(d: Document): (r: Document)
    ensures d.undoStack == [] ==> r == d
    ensures d.undoStack != [] ==>
      && |r.undoStack| == |d.undoStack| - 1
      && r.undoStack + [d.undoStack[|d.undoStack| - 1]] == d.undoStack
      && r.committed == d.committed + [d.undoStack[|d.undoStack| - 1]]
      && r.redoStack == d.redoStack + [d.undoStack[|d.undoStack| - 1]]
      && r.current == d.current && r.isDrawing == d.isDrawing && r.eraserActive == d.eraserActive
  {
    if d.undoStack == [] then d
    else
      var last := d.undoStack[|d.undoStack| - 1];
      d.(redoStack := d.redoStack + [last], committed := d.committed + [last], undoStack := d.undoStack[..|d.undoStack| - 1])
  }

  /** The clear-all button: every committed path moves, in order, onto the undo stack. */
  function ClearAll(d: Document): (r: Document)
    ensures r.committed == [] && r.redoStack == []
    ensures r.undoStack == d.undoStack + d.committed
    ensures |r.committed| + |r.undoStack| == |d.committed| + |d.undoStack|
    ensures r.current == d.current && r.isDrawing == d.isDrawing && r.eraserActive == d.eraserActive
  {
    d.(undoStack := d.undoStack + d.committed, committed := [], redoStack := [])
  }

  /** The eraser button flips the eraser mode and nothing else. */
  function ToggleEraser(d: Document): (r: Document)
    ensures r.eraserActive != d.eraserActive
    ensures r.(eraserActive := d.eraserActive) == d
  {
    d.(eraserActive := !d.eraserActive)
  }

  /** Choosing a tool in the tool bar; only the selection changes. */
  function SelectTool(tools: Tools, tool: Tool): (r: Tools)
    ensures r.selected == tool
    ensures r.(selected := tools.selected) == tools
  {
    tools.(selected := tool)
  }

  /** Dragging the pen width slider to screen x. */
  function SlidePen(tools: Tools, touchX: real): (r: Tools)
    ensures r.penWidth == Slider.PenWidthFor(touchX)
    ensures 1 <= r.penWidth <= 10
    ensures r.(penWidth := tools.penWidth) == tools
  {
    tools.(penWidth := Slider.PenWidthFor(touchX))
  }

  /** Dragging the highlighter width slider to screen x. */
  function SlideHighlighter(tools: Tools, touchX: real): (r: Tools)
    ensures r.highlighterWidth == Slider.HighlighterWidthFor(touchX)
    ensures 10 <= r.highlighterWidth <= 40
    ensures r.(highlighterWidth := tools.highlighterWidth) == tools
  {
    tools.(highlighterWidth := Slider.HighlighterWidthFor(touchX))
  }

  /** Dragging the shape line-width slider to screen x. */
  function SlideShape(tools: Tools, touchX: real): (r: Tools)
    ensures r.shapeWidth == Slider.PenWidthFor(touchX)
    ensures 1 <= r.shapeWidth <= 10
    ensures r.(shapeWidth := tools.shapeWidth) == tools
  {
    tools.(shapeWidth := Slider.PenWidthFor(touchX))
  }

  // ---------------------------------------------------------------------------
  // Properties of the handlers

  /** Dragging any width slider further right never makes the next strokes thinner, and the
      track ends give the extreme widths. */
  lemma SlidersFollowTrack(tools: Tools, a: real, b: real)
    requires a <= b
    ensures SlidePen(tools, a).penWidth <= SlidePen(tools, b).penWidth
    ensures SlideHighlighter(tools, a).highlighterWidth <= SlideHighlighter(tools, b).highlighterWidth
    ensures SlideShape(tools, a).shapeWidth <= SlideShape(tools, b).shapeWidth
    ensures a <= Slider.TrackOffset ==>
      SlidePen(tools, a).penWidth == 1 && SlideHighlighter(tools, a).highlighterWidth == 10
      && SlideShape(tools, a).shapeWidth == 1
    ensures b >= Slider.TrackOffset + Slider.TrackLength ==>
      SlidePen(tools, b).penWidth == 10 && SlideHighlighter(tools, b).highlighterWidth == 40
      && SlideShape(tools, b).shapeWidth == 10
  {
    Slider.WidthsMonotone(a, b);
    Slider.WidthsAtTrackEnds(a);
    Slider.WidthsAtTrackEnds(b);
  }

  /** The screen mounts with a valid document. */
  lemma EmptyDocumentValid()
    ensures Valid(EmptyDocument)
  {
  }

  /** On a fresh screen the first touch starts a black pen stroke of width 2. */
  lemma FirstTouchStartsDefaultPen(x: real, y: real)
    ensures Start(EmptyDocument, InitialTools, x, y).current == [Point(x, y, "#000000", 2, Pen)]
    ensures Start(EmptyDocument, InitialTools, x, y).isDrawing
  {
  }

  /** Every handler keeps the document valid. */
  lemma HandlersPreserveValid(d: Document, tools: Tools, x: real, y: real)
    requires Valid(d)
    ensures Valid(Start(d, tools, x, y))
    ensures Valid(Move(d, tools, x, y))
    ensures Valid(Release(d))
    ensures Valid(Undo(d))
    ensures Valid(Redo(d))
    ensures Valid(ClearAll(d))
    ensures Valid(ToggleEraser(d))
  {
    if d.committed != [] {
      var u := Undo(d);
      assert forall i :: 0 <= i < |u.committed| ==> u.committed[i] == d.committed[i];
    }
    if d.undoStack != [] {
      var r := Redo(d);
      assert forall i :: 0 <= i < |r.undoStack| ==> r.undoStack[i] == d.undoStack[i];
    }
  }

  /** Undo then redo gives back the committed paths and the undo stack; the redo stack
      then holds only the path that went round trip. */
  lemma UndoThenRedo(d: Document)
    requires d.committed != []
    ensures Redo(Undo(d)).committed == d.committed
    ensures Redo(Undo(d)).undoStack == d.undoStack
    ensures Redo(Undo(d)).redoStack == [d.committed[|d.committed| - 1]]
  {
    var u := Undo(d);
    assert u.undoStack[..|u.undoStack| - 1] == d.undoStack;
  }

  /** Redo then undo gives back the committed paths and the undo stack and empties the redo stack. */
  lemma RedoThenUndo(d: Document)
    requires d.undoStack != []
    ensures Undo(Redo(d)).committed == d.committed
    ensures Undo(Redo(d)).undoStack == d.undoStack
    ensures Undo(Redo(d)).redoStack == []
  {
    var r := Redo(d);
    assert r.committed[..|r.committed| - 1] == d.committed;
    assert r.undoStack + [d.undoStack[|d.undoStack| - 1]] == d.undoStack;
  }

  /** Two strokes A and B, then undo and redo. Undo leaves the redo stack empty, not
      holding B; the following redo commits B again and records it on the redo stack. */
  lemma TwoStrokesUndoRedo(a: Path, b: Path)
    requires a != [] && b != []
    ensures var drawn := Release(EmptyDocument.(committed := [a], current := b, isDrawing := true));
      && drawn.committed == [a, b]
      && Undo(drawn).committed == [a]
      && Undo(drawn).undoStack == [b]
      && Undo(drawn).redoStack == []
      && Redo(Undo(drawn)).committed == [a, b]
      && Redo(Undo(drawn)).undoStack == []
      && Redo(Undo(drawn)).redoStack == [b]
  {
    var drawn := Release(EmptyDocument.(committed := [a], current := b, isDrawing := true));
    assert drawn.committed[..1] == [a];
  }

  /** Erasing touches only the committed paths, never the history or the path being drawn. */
  lemma EraseLeavesHistory(d: Document, tools: Tools, x: real, y: real)
    requires d.eraserActive
    ensures Start(d, tools, x, y).undoStack == d.undoStack && Start(d, tools, x, y).redoStack == d.redoStack
    ensures Move(d, tools, x, y).undoStack == d.undoStack && Move(d, tools, x, y).redoStack == d.redoStack
    ensures Start(d, tools, x, y).current == d.current && Move(d, tools, x, y).current == d.current
    ensures |Start(d, tools, x, y).committed| <= |d.committed|
    ensures Release(d) == d
  {
  }

  /** A drag: the moves after the first touch, one sample each. */
  function MoveAll(d: Document, tools: Tools, samples: seq<(real, real)>): Document
    decreases |samples|
  {
    if samples == [] then d
    else MoveAll(Move(d, tools, samples[0].0, samples[0].1), tools, samples[1..])
  }

  /** The path a drawing gesture records for its samples under fixed tools. */
  function StampAll(tools: Tools, samples: seq<(real, real)>): Path
    requires tools.selected == PenTool || tools.selected == HighlighterTool
  {
    seq(|samples|, i requires 0 <= i < |samples| => Stamp(tools, samples[i].0, samples[i].1).value)
  }

  lemma {:induction false} MoveAllAppends(d: Document, tools: Tools, samples: seq<(real, real)>)
    requires !d.eraserActive && d.isDrawing
    requires tools.selected == PenTool || tools.selected == HighlighterTool
    ensures MoveAll(d, tools, samples) == d.(current := d.current + StampAll(tools, samples))
    decreases |samples|
  {
    if samples != [] {
      var d' := Move(d, tools, samples[0].0, samples[0].1);
      MoveAllAppends(d', tools, samples[1..]);
      assert StampAll(tools, samples) == [Stamp(tools, samples[0].0, samples[0].1).value] + StampAll(tools, samples[1..]);
    }
  }

  /** A full pen or highlighter gesture (down, every move, up) commits exactly one new path
      holding one point per sample, in order, all with the tool's style; nothing else changes. */
  lemma DrawingGestureCommitsOnePath(d: Document, tools: Tools, samples: seq<(real, real)>)
    requires !d.eraserActive
    requires tools.selected == PenTool || tools.selected == HighlighterTool
    requires samples != []
    ensures var r := Release(MoveAll(Start(d, tools, samples[0].0, samples[0].1), tools, samples[1..]));
      && r.committed == d.committed + [StampAll(tools, samples)]
      && |r.committed[|r.committed| - 1]| == |samples|
      && Uniform(r.committed[|r.committed| - 1])
      && r.current == [] && !r.isDrawing
      && r.undoStack == d.undoStack && r.redoStack == d.redoStack
  {
    var s := Start(d, tools, samples[0].0, samples[0].1);
    MoveAllAppends(s, tools, samples[1..]);
    assert [Stamp(tools, samples[0].0, samples[0].1).value] + StampAll(tools, samples[1..]) == StampAll(tools, samples);
  }
}
