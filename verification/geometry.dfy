/** Stroke points and paths of the drawing canvas (starlus/app/notes.tsx:89-95). */
module Geometry {

  /** The `type` field of a drawing point: which tool laid it down. */
  datatype Kind = Pen | Highlighter

  /** One sampled touch position, stamped with the style of the tool that drew it.
      Coordinates are the canvas-local `locationX`/`locationY` of the touch. */
  datatype Point = Point(x: real, y: real, color: string, width: int, kind: Kind)

  /** A stroke: the points of one drawing gesture, in capture order. */
  type Path = seq<Point>

  /** Optional values, used where the source returns `null`. */
  datatype Option<T> = None | Some(value: T)

  /** All points of a sequence of paths, path after path. */
  function Flatten(paths: seq<Path>): seq<Point>
  {
    if paths == [] then [] else paths[0] + Flatten(paths[1..])
  }

  lemma {:induction false} FlattenAppend(a: seq<Path>, b: seq<Path>)
    ensures Flatten(a + b) == Flatten(a) + Flatten(b)
  {
    if a == [] {
      assert a + b == b;
    } else {
      assert (a + b)[1..] == a[1..] + b;
      FlattenAppend(a[1..], b);
    }
  }

  /** Every path of the sequence has at least one point. */
  predicate AllNonEmpty(paths: seq<Path>)
  {
    forall i :: 0 <= i < |paths| ==> paths[i] != []
  }

  /** All points of a path share the style they were stamped with. */
  predicate Uniform(path: Path)
  {
    forall i :: 0 <= i < |path| ==>
      path[i].color == path[0].color && path[i].width == path[0].width && path[i].kind == path[0].kind
  }
}
