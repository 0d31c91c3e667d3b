/** The point eraser (starlus/app/notes.tsx:611-618): every point within the eraser
    radius of the touch is removed, and paths left with no point are dropped. */
module Eraser {
  import opened Geometry

  /** Radius of the eraser, in canvas units. */
  const EraserRadius: real := 20.0

  /** A point survives an erase at (x, y) when it lies strictly farther than the
      radius from the touch; the square root of the source is compared squared. */
  predicate Survives(p: Point, x: real, y: real)
  {
    var dx := p.x - x;
    var dy := p.y - y;
    dx * dx + dy * dy > EraserRadius * EraserRadius
  }

  /** The filter applied to one path: the surviving points, in their order. */
  function KeepFar(path: Path, x: real, y: real): (r: Path)
    ensures |r| <= |path|
    ensures forall p :: p in r <==> p in path && Survives(p, x, y)
  {
    if path == [] then []
    else (if Survives(path[0], x, y) then [path[0]] else []) + KeepFar(path[1..], x, y)
  }

  /** Indices, from `from` on, of the points of `path` that survive, increasing. */
  function SurvivorIndices(path: Path, x: real, y: real, from: nat): (r: seq<nat>)
    requires from <= |path|
    ensures forall k :: 0 <= k < |r| ==> from <= r[k] < |path| && Survives(path[r[k]], x, y)
    ensures forall k, l :: 0 <= k < l < |r| ==> r[k] < r[l]
    ensures forall i :: from <= i < |path| && Survives(path[i], x, y) ==> i in r
    decreases |path| - from
  {
    if from == |path| then []
    else
      var rest := SurvivorIndices(path, x, y, from + 1);
      if Survives(path[from], x, y) then [from] + rest else rest
  }

  /** The filter keeps exactly the surviving points at their increasing original
      positions: relative order is preserved and nothing is duplicated. */
  lemma {:induction false} KeepFarSelectsSurvivors(path: Path, x: real, y: real, from: nat)
    requires from <= |path|
    ensures |KeepFar(path[from..], x, y)| == |SurvivorIndices(path, x, y, from)|
    ensures forall k :: 0 <= k < |KeepFar(path[from..], x, y)| ==>
      KeepFar(path[from..], x, y)[k] == path[SurvivorIndices(path, x, y, from)[k]]
    decreases |path| - from
  {
    if from < |path| {
      KeepFarSelectsSurvivors(path, x, y, from + 1);
      var tail := KeepFar(path[from + 1..], x, y);
      var rest := SurvivorIndices(path, x, y, from + 1);
      var whole := KeepFar(path[from..], x, y);
      var idx := SurvivorIndices(path, x, y, from);
      assert path[from..] == [path[from]] + path[from + 1..];
      if Survives(path[from], x, y) {
        assert whole == [path[from]] + tail;
        assert idx == [from] + rest;
        forall k | 0 <= k < |whole|
          ensures whole[k] == path[idx[k]]
        {
          if k > 0 {
            assert whole[k] == tail[k - 1];
            assert idx[k] == rest[k - 1];
          }
        }
      } else {
        assert whole == tail;
        assert idx == rest;
      }
    }
  }

  lemma {:induction false} KeepFarAppend(a: Path, b: Path, x: real, y: real)
    ensures KeepFar(a + b, x, y) == KeepFar(a, x, y) + KeepFar(b, x, y)
  {
    if a == [] {
      assert a + b == b;
    } else {
      assert (a + b)[0] == a[0];
      assert (a + b)[1..] == a[1..] + b;
      KeepFarAppend(a[1..], b, x, y);
    }
  }

  /** The `filter(path => path.length > 0)` step. */
  function DropEmpty(paths: seq<Path>): (r: seq<Path>)
    ensures |r| <= |paths|
    ensures AllNonEmpty(r)
    ensures forall q :: q in r <==> q in paths && q != []
  {
    if paths == [] then []
    else (if paths[0] == [] then [] else [paths[0]]) + DropEmpty(paths[1..])
  }

  /** Dropping empty paths keeps the other paths in their order, duplicates included. */
  lemma {:induction false} DropEmptyAppend(a: seq<Path>, b: seq<Path>)
    ensures DropEmpty(a + b) == DropEmpty(a) + DropEmpty(b)
  {
    if a == [] {
      assert a + b == b;
    } else {
      assert (a + b)[0] == a[0];
      assert (a + b)[1..] == a[1..] + b;
      DropEmptyAppend(a[1..], b);
    }
  }

  /** The `map(path => path.filter(...))` step. */
  function FilterEach(paths: seq<Path>, x: real, y: real): seq<Path>
  {
    seq(|paths|, i requires 0 <= i < |paths| => KeepFar(paths[i], x, y))
  }

  /** Erase at (x, y) over the committed paths. */
  function Erase(paths: seq<Path>, x: real, y: real): (r: seq<Path>)
    ensures |r| <= |paths|
    ensures AllNonEmpty(r)
  {
    DropEmpty(FilterEach(paths, x, y))
  }

  /** Erasing works path by path and keeps drawing order: the erased canvas is, in order,
      the filtered version of each original path that still has a point. */
  lemma {:induction false} EraseAppend(a: seq<Path>, b: seq<Path>, x: real, y: real)
    ensures Erase(a + b, x, y) == Erase(a, x, y) + Erase(b, x, y)
  {
    assert FilterEach(a + b, x, y) == FilterEach(a, x, y) + FilterEach(b, x, y);
    DropEmptyAppend(FilterEach(a, x, y), FilterEach(b, x, y));
  }

  /** Erasing a single path leaves its filtered points as one path, or nothing. */
  lemma EraseOne(p: Path, x: real, y: real)
    ensures Erase([p], x, y) == (if KeepFar(p, x, y) == [] then [] else [KeepFar(p, x, y)])
  {
    assert FilterEach([p], x, y) == [KeepFar(p, x, y)];
    assert FilterEach([p], x, y)[1..] == [];
  }

  lemma {:induction false} FlattenDropEmpty(paths: seq<Path>)
    ensures Flatten(DropEmpty(paths)) == Flatten(paths)
  {
    if paths != [] {
      FlattenDropEmpty(paths[1..]);
      if paths[0] != [] {
        FlattenAppend([paths[0]], DropEmpty(paths[1..]));
        assert Flatten([paths[0]]) == paths[0] + Flatten([]);
      } else {
        assert DropEmpty(paths) == DropEmpty(paths[1..]);
        assert Flatten(paths) == [] + Flatten(paths[1..]);
      }
    }
  }

  lemma {:induction false} FlattenFilterEach(paths: seq<Path>, x: real, y: real)
    ensures Flatten(FilterEach(paths, x, y)) == KeepFar(Flatten(paths), x, y)
  {
    if paths != [] {
      FlattenFilterEach(paths[1..], x, y);
      assert FilterEach(paths, x, y)[1..] == FilterEach(paths[1..], x, y);
      KeepFarAppend(paths[0], Flatten(paths[1..]), x, y);
    }
  }

  /** Reading all points path after path, erasing is the point filter applied to
      that reading: surviving points keep their order, across paths as well. */
  lemma EraseFlattens(paths: seq<Path>, x: real, y: real)
    ensures Flatten(Erase(paths, x, y)) == KeepFar(Flatten(paths), x, y)
  {
    FlattenDropEmpty(FilterEach(paths, x, y));
    FlattenFilterEach(paths, x, y);
  }

  /** A point remains on the canvas after an erase iff it was there and lies beyond the radius. */
  lemma EraseKeepsExactlyFarPoints(paths: seq<Path>, x: real, y: real, p: Point)
    ensures p in Flatten(Erase(paths, x, y)) <==> p in Flatten(paths) && Survives(p, x, y)
  {
    EraseFlattens(paths, x, y);
  }

  lemma {:induction false} KeepFarIdempotent(path: Path, x: real, y: real)
    ensures KeepFar(KeepFar(path, x, y), x, y) == KeepFar(path, x, y)
  {
    if path != [] {
      KeepFarIdempotent(path[1..], x, y);
      var head := if Survives(path[0], x, y) then [path[0]] else [];
      KeepFarAppend(head, KeepFar(path[1..], x, y), x, y);
    }
  }

  lemma {:induction false} KeepFarAllFar(path: Path, x: real, y: real)
    requires forall i :: 0 <= i < |path| ==> Survives(path[i], x, y)
    ensures KeepFar(path, x, y) == path
  {
    if path != [] {
      KeepFarAllFar(path[1..], x, y);
    }
  }

  lemma {:induction false} DropEmptyNonEmpty(paths: seq<Path>)
    requires AllNonEmpty(paths)
    ensures DropEmpty(paths) == paths
  {
    if paths != [] {
      DropEmptyNonEmpty(paths[1..]);
    }
  }

  /** Erasing twice at the same touch point removes nothing more. */
  lemma EraseIdempotent(paths: seq<Path>, x: real, y: real)
    ensures Erase(Erase(paths, x, y), x, y) == Erase(paths, x, y)
  {
    var once := Erase(paths, x, y);
    forall i | 0 <= i < |once|
      ensures KeepFar(once[i], x, y) == once[i]
    {
      assert once[i] in once;
      forall k | 0 <= k < |once[i]|
        ensures Survives(once[i][k], x, y)
      {
        assert once[i] in FilterEach(paths, x, y);
        var j :| 0 <= j < |paths| && FilterEach(paths, x, y)[j] == once[i];
        assert once[i][k] in KeepFar(paths[j], x, y);
      }
      KeepFarAllFar(once[i], x, y);
    }
    assert FilterEach(once, x, y) == once;
    DropEmptyNonEmpty(once);
  }

  /** A touch farther than the radius from every point leaves non-empty paths as they are. */
  lemma EraseFarAwayIsIdentity(paths: seq<Path>, x: real, y: real)
    requires AllNonEmpty(paths)
    requires forall i, k :: 0 <= i < |paths| && 0 <= k < |paths[i]| ==> Survives(paths[i][k], x, y)
    ensures Erase(paths, x, y) == paths
  {
    forall i | 0 <= i < |paths|
      ensures KeepFar(paths[i], x, y) == paths[i]
    {
      KeepFarAllFar(paths[i], x, y);
    }
    assert FilterEach(paths, x, y) == paths;
    DropEmptyNonEmpty(paths);
  }
}
