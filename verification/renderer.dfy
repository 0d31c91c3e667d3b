/** Turning paths into drawable polylines (starlus/app/notes.tsx:543-586). The SVG path
    string is modelled as its list of commands. */
module Renderer {
  import opened Geometry
  import Canvas

  /** One command of SVG path data. */
  datatype Command = MoveTo(x: real, y: real) | LineTo(x: real, y: real)

  /** A drawn `<Path>`: its commands and the style taken from the path's first point. */
  datatype Stroke = Stroke(commands: seq<Command>, color: string, width: int, opacity: real)

  /** Opacity by kind: highlighter strokes are drawn half transparent. */
  function OpacityOf(kind: Kind): real
  {
    if kind == Highlighter then 0.5 else 1.0
  }

  /** The path-data reduce: `M` for the first point, `L` for every later one. */
  function PathCommands(path: Path): seq<Command>
  {
    seq(|path|, i requires 0 <= i < |path| =>
      if i == 0 then MoveTo(path[i].x, path[i].y) else LineTo(path[i].x, path[i].y))
  }

  /** Commands that open with a single `M` and continue with `L` only. */
  predicate Polyline(cmds: seq<Command>)
  {
    && cmds != []
    && cmds[0].MoveTo?
    && forall i :: 1 <= i < |cmds| ==> cmds[i].LineTo?
  }

  /** The coordinates a command list visits. */
  function Vertices(cmds: seq<Command>): (r: seq<(real, real)>)
    ensures |r| == |cmds|
  {
    seq(|cmds|, i requires 0 <= i < |cmds| => (cmds[i].x, cmds[i].y))
  }

  /** The coordinates of a path's points. */
  function Coordinates(path: Path): seq<(real, real)>
  {
    seq(|path|, i requires 0 <= i < |path| => (path[i].x, path[i].y))
  }

  /** A path draws as nothing below two points; otherwise as one polyline through all
      its points, styled by its first point. */
  function ToStroke(path: Path): (r: Option<Stroke>)
    ensures r.None? <==> |path| < 2
    ensures r.Some? ==>
      && Polyline(r.value.commands)
      && |r.value.commands| == |path|
      && Vertices(r.value.commands) == Coordinates(path)
      && r.value.color == path[0].color && r.value.width == path[0].width
      && (r.value.opacity == 0.5 <==> path[0].kind == Highlighter)
      && (r.value.opacity == 1.0 <==> path[0].kind == Pen)
  {
    if |path| < 2 then None
    else Some(Stroke(PathCommands(path), path[0].color, path[0].width, OpacityOf(path[0].kind)))
  }

  /** The number of paths with at least two points. */
  function DrawableCount(paths: seq<Path>): nat
  {
    if paths == [] then 0 else (if |paths[0]| >= 2 then 1 else 0) + DrawableCount(paths[1..])
  }

  /** Strokes of the committed paths, in z-order; short paths are skipped. */
  function StrokesOf(paths: seq<Path>): (r: seq<Stroke>)
    ensures |r| == DrawableCount(paths)
    ensures forall i :: 0 <= i < |r| ==> Polyline(r[i].commands) && |r[i].commands| >= 2
  {
    if paths == [] then []
    else
      match ToStroke(paths[0])
      case None => StrokesOf(paths[1..])
      case Some(s) => [s] + StrokesOf(paths[1..])
  }

  /** The whole canvas: committed strokes, then the path being drawn when it has two points. */
  function Render(d: Canvas.Document): (r: seq<Stroke>)
    ensures |r| == DrawableCount(d.committed) + (if |d.current| > 1 then 1 else 0)
    ensures r[..DrawableCount(d.committed)] == StrokesOf(d.committed)
    ensures |d.current| > 1 ==> r[|r| - 1] == ToStroke(d.current).value
  {
    StrokesOf(d.committed) + (if |d.current| > 1 then [ToStroke(d.current).value] else [])
  }

  /** Committing a path adds its stroke on top, or nothing when it is a single point. */
  lemma {:induction false} StrokesOfAppend(paths: seq<Path>, p: Path)
    ensures StrokesOf(paths + [p]) == StrokesOf(paths) + (if |p| >= 2 then [ToStroke(p).value] else [])
  {
    if paths == [] {
      assert paths + [p] == [p];
    } else {
      assert (paths + [p])[1..] == paths[1..] + [p];
      StrokesOfAppend(paths[1..], p);
    }
  }

  /** Lifting the finger does not change what is on screen: the stroke of the path being
      drawn moves from the in-progress slot to the top of the committed strokes, and a
      single-point path is drawn in neither place. */
  lemma ReleaseKeepsPicture(d: Canvas.Document)
    requires !d.eraserActive && d.isDrawing
    ensures Render(Canvas.Release(d)) == Render(d)
  {
    StrokesOfAppend(d.committed, d.current);
  }

  /** Decoding the commands of a path gives back exactly the path's coordinates. */
  lemma PathCommandsRoundTrip(path: Path)
    ensures Vertices(PathCommands(path)) == Coordinates(path)
    ensures path != [] ==> Polyline(PathCommands(path))
  {
  }
}
