/**
 * The measurement session of src/App.jsx (`LawnCalculator`): finished
 * polygons, the path being drawn, the view/draw/edit mode, and the total area
 * derived from them (`calculatedArea`).
 */
module LawnCalculator {
  import opened Wrappers
  import opened Geometry

  /** The three modes of the measuring toolbar. */
  datatype Mode = View | Draw | Edit

  // ---------------------------------------------------------------------------
  // Area aggregation (`calculatedArea`)
  // ---------------------------------------------------------------------------

  /** What one path adds to the running total: nothing below three vertices. */
  function PathSqFt(area: AreaFn, path: Path): nat
  {
    if |path| < MinVertices then 0 else SqFt(area(path))
  }

  /**
   * The `reduce` over the paths, accumulating from the first path to the last:
   * every path is rounded on its own, then the rounded values are added.
   */
  function SumSqFt(area: AreaFn, paths: seq<Path>): (r: int)
    ensures r >= 0
    decreases |paths|
  {
    if paths == [] then 0
    else SumSqFt(area, paths[..|paths| - 1]) + PathSqFt(area, paths[|paths| - 1])
  }

  /** The finished polygons, followed by the active path when it is non-empty. */
  function AllPaths(polygons: seq<Path>, activePath: Path): seq<Path>
  {
    if |activePath| > 0 then polygons + [activePath] else polygons
  }

  /**
   * `calculatedArea`: 0 when the geometry library is not loaded, otherwise the
   * per-path-rounded total over all paths.
   */
  function CalculatedArea(geometry: Option<AreaFn>, polygons: seq<Path>, activePath: Path): (r: int)
    ensures r >= 0
    ensures geometry == None ==> r == 0
  {
    match geometry
    case None => 0
    case Some(area) => SumSqFt(area, AllPaths(polygons, activePath))
  }

  /** Sum over a concatenation is the sum of the sums. */
  lemma {:induction false} SumSqFtAppend(area: AreaFn, a: seq<Path>, b: seq<Path>)
    ensures SumSqFt(area, a + b) == SumSqFt(area, a) + SumSqFt(area, b)
    decreases |b|
  {
    if b == [] {
      assert a + b == a;
    } else {
      var b' := b[..|b| - 1];
      assert (a + b)[..|a + b| - 1] == a + b';
      assert (a + b)[|a + b| - 1] == b[|b| - 1];
      SumSqFtAppend(area, a, b');
    }
  }

  /** The paths that `calculatedArea` counts: those with at least three vertices. */
  function CompletePaths(paths: seq<Path>): (r: seq<Path>)
    ensures |r| <= |paths|
    ensures forall i :: 0 <= i < |r| ==> |r[i]| >= MinVertices
    ensures forall p :: p in r <==> p in paths && |p| >= MinVertices
    decreases |paths|
  {
    if paths == [] then []
    else
      var rest := CompletePaths(paths[..|paths| - 1]);
      var last := paths[|paths| - 1];
      assert paths == paths[..|paths| - 1] + [last];
      if |last| < MinVertices then rest else rest + [last]
  }

  /**
   * The kept paths stay in their order: filtering two lists side by side is
   * filtering each, and a single path is kept exactly when it is complete.
   */
  lemma {:induction false} CompletePathsAppend(a: seq<Path>, b: seq<Path>)
    ensures CompletePaths(a + b) == CompletePaths(a) + CompletePaths(b)
    ensures |b| == 1 ==> CompletePaths(b) == if |b[0]| >= MinVertices then b else []
    decreases |b|
  {
    if b == [] {
      assert a + b == a;
    } else {
      var b' := b[..|b| - 1];
      assert (a + b)[..|a + b| - 1] == a + b';
      CompletePathsAppend(a, b');
      if |b| == 1 {
        assert b[..0] == [];
      }
    }
  }

  /**
   * Every complete path is kept as often as it occurs, and no incomplete one
   * is kept at all.
   */
  lemma {:induction false} CompletePathsMultiplicity(paths: seq<Path>, p: Path)
    ensures multiset(CompletePaths(paths))[p] == if |p| >= MinVertices then multiset(paths)[p] else 0
    decreases |paths|
  {
    if paths != [] {
      var init, last := paths[..|paths| - 1], paths[|paths| - 1];
      assert paths == init + [last];
      CompletePathsMultiplicity(init, p);
    }
  }

  /** Paths with fewer than three vertices contribute nothing to the total. */
  lemma {:induction false} IncompletePathsSkipped(area: AreaFn, paths: seq<Path>)
    ensures SumSqFt(area, paths) == SumSqFt(area, CompletePaths(paths))
    decreases |paths|
  {
    if paths != [] {
      var init := paths[..|paths| - 1];
      var last := paths[|paths| - 1];
      IncompletePathsSkipped(area, init);
      if |last| >= MinVertices {
        SumSqFtAppend(area, CompletePaths(init), [last]);
        assert [last][..0] == [];
      }
    }
  }

  /** The order in which the paths are summed does not change the total. */
  lemma {:induction false} SumSqFtOrderIndependent(area: AreaFn, a: seq<Path>, b: seq<Path>)
    requires multiset(a) == multiset(b)
    ensures SumSqFt(area, a) == SumSqFt(area, b)
    decreases |a|
  {
    if a != [] {
      var init, last := a[..|a| - 1], a[|a| - 1];
      assert a == init + [last];
      assert last in multiset(b);
      var i :| 0 <= i < |b| && b[i] == last;
      var rest := b[..i] + b[i + 1..];
      assert b == b[..i] + [last] + b[i + 1..];
      assert multiset(a) == multiset(init) + multiset{last};
      assert multiset(b) == multiset(b[..i]) + multiset{last} + multiset(b[i + 1..]);
      assert multiset(rest) == multiset(b[..i]) + multiset(b[i + 1..]);
      assert multiset(init) == multiset(a) - multiset{last};
      assert multiset(rest) == multiset(b) - multiset{last};
      SumSqFtOrderIndependent(area, init, rest);
      SumSqFtAppend(area, b[..i] + [last], b[i + 1..]);
      SumSqFtAppend(area, b[..i], [last]);
      SumSqFtAppend(area, b[..i], b[i + 1..]);
      assert [last][..0] == [];
    }
  }

  /** The exact, unrounded square-foot area of the paths that count. */
  function ExactSqFt(area: AreaFn, paths: seq<Path>): real
    decreases |paths|
  {
    if paths == [] then 0.0
    else
      var last := paths[|paths| - 1];
      ExactSqFt(area, paths[..|paths| - 1]) + (if |last| < MinVertices then 0.0 else area(last) * SqFtPerSqM)
  }

  /**
   * Rounding each path on its own keeps the total within half a square foot per
   * counted path of the exact total.
   */
  lemma {:induction false} PerPathRoundingError(area: AreaFn, paths: seq<Path>)
    ensures var n := |CompletePaths(paths)| as real;
      ExactSqFt(area, paths) - n * 0.5 <= SumSqFt(area, paths) as real <= ExactSqFt(area, paths) + n * 0.5
    decreases |paths|
  {
    if paths != [] {
      PerPathRoundingError(area, paths[..|paths| - 1]);
    }
  }

  /**
   * The guard on the active path is immaterial: the total is the finished
   * polygons' sum plus what the active path contributes on its own.
   */
  lemma CalculatedAreaSplit(area: AreaFn, polygons: seq<Path>, activePath: Path)
    ensures CalculatedArea(Some(area), polygons, activePath)
         == SumSqFt(area, polygons) + PathSqFt(area, activePath)
  {
    if activePath != [] {
      assert (polygons + [activePath])[..|polygons|] == polygons;
    }
  }

  /** Moving a completed active path into the finished list keeps the total. */
  lemma FinishKeepsArea(geometry: Option<AreaFn>, polygons: seq<Path>, activePath: Path)
    requires |activePath| >= MinVertices
    ensures CalculatedArea(geometry, polygons + [activePath], [])
         == CalculatedArea(geometry, polygons, activePath)
  {
    if geometry.Some? {
      CalculatedAreaSplit(geometry.value, polygons + [activePath], []);
    }
  }

  /**
   * When every finished polygon passed the three-vertex check, none of them is
   * skipped: the paths counted are the polygons themselves.
   */
  lemma {:induction false} FinishedPolygonsAllCount(polygons: seq<Path>)
    requires forall i :: 0 <= i < |polygons| ==> |polygons[i]| >= MinVertices
    ensures CompletePaths(polygons) == polygons
    decreases |polygons|
  {
    if polygons != [] {
      FinishedPolygonsAllCount(polygons[..|polygons| - 1]);
    }
  }

  // ---------------------------------------------------------------------------
  // The session state machine
  // ---------------------------------------------------------------------------

  /** The `polygons`, `activePath` and `mode` state of one `LawnCalculator`. */
  class Session {
    var polygons: seq<Path>
    var activePath: Path
    var mode: Mode

    /** Every finished polygon passed the three-vertex check of `finishShape`. */
    ghost predicate Valid()
      reads this
    {
      forall i :: 0 <= i < |polygons| ==> |polygons[i]| >= MinVertices
    }

    /** The session's derived total, as `calculatedArea`. */
    function Area(geometry: Option<AreaFn>): (r: int)
      reads this
      ensures r >= 0
    {
      CalculatedArea(geometry, polygons, activePath)
    }

    /**
     * In a valid session every finished polygon counts, so with the geometry
     * library loaded the total is the polygons' rounded sum plus whatever the
     * active path contributes.
     */
    lemma AreaOfValidSession(area: AreaFn)
      requires Valid()
      ensures CompletePaths(polygons) == polygons
      ensures Area(Some(area)) == SumSqFt(area, polygons) + PathSqFt(area, activePath)
    {
      FinishedPolygonsAllCount(polygons);
      CalculatedAreaSplit(area, polygons, activePath);
    }

    /** The initial `useState` values: no shapes, view mode. */
    constructor ()
      ensures Valid()
      ensures polygons == [] && activePath == [] && mode == View
    {
      polygons, activePath, mode := [], [], View;
    }

    /** The Draw and Edit buttons: the mode changes, the shapes do not. */
    method SetMode(m: Mode)
      requires Valid()
      requires m == Draw || m == Edit
      modifies this
      ensures Valid()
      ensures mode == m
      ensures polygons == old(polygons) && activePath == old(activePath)
    {
      mode := m;
    }

    /** The map's `onClick`: in draw mode the clicked point joins the active path. */
    method MapClick(point: LatLng)
      requires Valid()
      modifies this
      ensures Valid()
      ensures old(mode) == Draw ==> activePath == old(activePath) + [point]
      ensures old(mode) != Draw ==> activePath == old(activePath)
      ensures polygons == old(polygons) && mode == old(mode)
    {
      if mode == Draw {
        activePath := activePath + [point];
      }
    }

    /**
     * `finishShape`: with fewer than three points only the alert is raised
     * (`alerted`); otherwise the active path becomes the last polygon.
     */
    method FinishShape() returns (alerted: bool)
      requires Valid()
      modifies this
      ensures Valid()
      ensures alerted <==> |old(activePath)| < MinVertices
      ensures alerted ==> polygons == old(polygons) && activePath == old(activePath)
      ensures !alerted ==> polygons == old(polygons) + [old(activePath)] && activePath == []
      ensures mode == old(mode)
      ensures forall g :: CalculatedArea(g, polygons, activePath) == CalculatedArea(g, old(polygons), old(activePath))
    {
      if |activePath| < MinVertices {
        alerted := true;
        return;
      }
      alerted := false;
      forall g {
        FinishKeepsArea(g, polygons, activePath);
      }
      polygons := polygons + [activePath];
      activePath := [];
    }

    /** `handleClearAll`: no shapes, view mode, and so a total of zero. */
    method HandleClearAll()
      modifies this
      ensures Valid()
      ensures polygons == [] && activePath == [] && mode == View
      ensures forall g :: Area(g) == 0
    {
      polygons, activePath, mode := [], [], View;
    }
  }
}
