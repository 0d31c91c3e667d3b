/** The paper background behind the strokes (starlus/app/notes.tsx:7-73): grid or ruled
    lines over a 1000-unit extent, or nothing. */
module Background {

  datatype PaperStyle = Grid | Ruled | NoLines

  /** A full-length vertical line at x, or horizontal line at y. */
  datatype Line = Vertical(x: int) | Horizontal(y: int)

  /** The extent the lines are generated for. */
  const Extent: nat := 1000

  /** Spacing of grid lines and of ruled lines. */
  const GridSize: nat := 20
  const RuledSpacing: nat := 30

  /** `Math.ceil(a / b)` for natural numbers. */
  function CeilDiv(a: nat, b: nat): (n: nat)
    requires b > 0
    ensures n * b >= a
    ensures n > 0 ==> (n - 1) * b < a
  {
    (a + b - 1) / b
  }

  /** `Array.from({length: n}).map((_, i) => ...)`: n lines at 0, spacing, 2*spacing, ... */
  function Lines(n: nat, spacing: nat, vertical: bool): (r: seq<Line>)
    ensures |r| == n
    ensures forall i :: 0 <= i < n ==> r[i] == (if vertical then Vertical(i * spacing) else Horizontal(i * spacing))
  {
    seq(n, i requires 0 <= i < n => if vertical then Vertical(i * spacing) else Horizontal(i * spacing))
  }

  /** The lines drawn for a paper style: for the grid, the vertical lines then the horizontal ones. */
  function BackgroundLines(style: PaperStyle): seq<Line>
  {
    match style
    case NoLines => []
    case Grid =>
      var n := CeilDiv(Extent, GridSize);
      Lines(n, GridSize, true) + Lines(n, GridSize, false)
    case Ruled => Lines(CeilDiv(Extent, RuledSpacing), RuledSpacing, false)
  }

  /** The offset of a line along its axis. */
  function Offset(l: Line): int
  {
    match l
    case Vertical(x) => x
    case Horizontal(y) => y
  }

  /** The counts and kinds of lines each style produces. */
  lemma LineCounts()
    ensures |BackgroundLines(NoLines)| == 0
    ensures |BackgroundLines(Grid)| == 100
    ensures forall i :: 0 <= i < 50 ==> BackgroundLines(Grid)[i] == Vertical(20 * i)
    ensures forall i :: 50 <= i < 100 ==> BackgroundLines(Grid)[i] == Horizontal(20 * (i - 50))
    ensures |BackgroundLines(Ruled)| == 34
    ensures forall i :: 0 <= i < 34 ==> BackgroundLines(Ruled)[i] == Horizontal(30 * i)
  {
    assert CeilDiv(Extent, GridSize) == 50;
    assert CeilDiv(Extent, RuledSpacing) == 34;
  }

  /** Lines are spaced evenly from 0 up to the extent: every line lies inside it, and every
      position inside it is less than one spacing past some line of each drawn direction. */
  lemma LinesCoverExtent(style: PaperStyle, pos: nat)
    requires style != NoLines
    requires pos < Extent
    ensures forall i :: 0 <= i < |BackgroundLines(style)| ==> 0 <= Offset(BackgroundLines(style)[i]) < Extent
    ensures var spacing := if style == Grid then GridSize else RuledSpacing;
      exists i :: 0 <= i < |BackgroundLines(style)| && BackgroundLines(style)[i].Horizontal?
        && Offset(BackgroundLines(style)[i]) <= pos < Offset(BackgroundLines(style)[i]) + spacing
    ensures style == Grid ==>
      exists i :: 0 <= i < |BackgroundLines(style)| && BackgroundLines(style)[i].Vertical?
        && Offset(BackgroundLines(style)[i]) <= pos < Offset(BackgroundLines(style)[i]) + GridSize
  {
    LineCounts();
    var lines := BackgroundLines(style);
    if style == Grid {
      var k := pos / GridSize;
      assert lines[k] == Vertical(20 * k);
      assert lines[50 + k] == Horizontal(20 * k);
    } else {
      var k := pos / RuledSpacing;
      assert lines[k] == Horizontal(30 * k);
    }
  }
}
