/**
 * The measurement side of src/App1.jsx (`LawnCalculator`): the drawing
 * library's snapshot of features is folded into a total area and a label
 * position on every "finish" and "change" event; the toolbar clears the
 * drawing and zooms in.
 */
module DrawCalculator {
  import opened Wrappers
  import opened Geometry
  import LawnCalculator

  /** A GeoJSON position: longitude first, then latitude. */
  datatype Position = Position(lng: real, lat: real)

  /** A snapshot feature: its geometry type name and its coordinate rings. */
  datatype Feature = Feature(geometryType: string, rings: seq<seq<Position>>)

  /** The deepest zoom the zoom-in button goes to. */
  const MaxZoom: int := 21

  /** The zoom the map starts at. */
  const InitialZoom: int := 14

  predicate IsPolygon(f: Feature)
  {
    f.geometryType == "Polygon"
  }

  /**
   * What the drawing library guarantees of every polygon it reports: an outer
   * ring that has at least one position (a closed ring has at least four).
   */
  predicate WellFormed(f: Feature)
  {
    IsPolygon(f) ==> |f.rings| > 0 && |f.rings[0]| > 0
  }

  /** Every feature of the snapshot is well formed. */
  predicate AllWellFormed(snapshot: seq<Feature>)
  {
    forall k :: 0 <= k < |snapshot| ==> WellFormed(snapshot[k])
  }

  /** The outer ring as a path of `{ lat, lng }` points, coordinates swapped. */
  function OuterPath(f: Feature): (p: Path)
    requires IsPolygon(f) && WellFormed(f)
    ensures |p| == |f.rings[0]| > 0
    ensures forall i :: 0 <= i < |p| ==> p[i].lat == f.rings[0][i].lat && p[i].lng == f.rings[0][i].lng
  {
    seq(|f.rings[0]|, i requires 0 <= i < |f.rings[0]| => LatLng(f.rings[0][i].lat, f.rings[0][i].lng))
  }

  /** What one feature adds: polygons their rounded area, anything else nothing. */
  function FeatureSqFt(area: AreaFn, f: Feature): nat
    requires WellFormed(f)
  {
    if IsPolygon(f) then SqFt(area(OuterPath(f))) else 0
  }

  /** `newTotalArea` after the `forEach` over the snapshot, first feature first. */
  function SnapshotSqFt(area: AreaFn, snapshot: seq<Feature>): (r: int)
    requires AllWellFormed(snapshot)
    ensures r >= 0
    decreases |snapshot|
  {
    if snapshot == [] then 0
    else SnapshotSqFt(area, snapshot[..|snapshot| - 1]) + FeatureSqFt(area, snapshot[|snapshot| - 1])
  }

  /** The label position after the `forEach`: the first vertex of the last polygon seen. */
  function LastLabel(snapshot: seq<Feature>, before: Option<LatLng>): Option<LatLng>
    requires AllWellFormed(snapshot)
    decreases |snapshot|
  {
    if snapshot == [] then before
    else
      var last := snapshot[|snapshot| - 1];
      if IsPolygon(last) then Some(OuterPath(last)[0])
      else LastLabel(snapshot[..|snapshot| - 1], before)
  }

  /** Sum over a concatenation of snapshots is the sum of the sums. */
  lemma {:induction false} SnapshotSqFtAppend(area: AreaFn, a: seq<Feature>, b: seq<Feature>)
    requires AllWellFormed(a)
    requires AllWellFormed(b)
    ensures SnapshotSqFt(area, a + b) == SnapshotSqFt(area, a) + SnapshotSqFt(area, b)
    decreases |b|
  {
    if b == [] {
      assert a + b == a;
    } else {
      var b' := b[..|b| - 1];
      assert (a + b)[..|a + b| - 1] == a + b';
      assert (a + b)[|a + b| - 1] == b[|b| - 1];
      SnapshotSqFtAppend(area, a, b');
    }
  }

  /** A feature that is not a polygon, wherever it sits, leaves the total unchanged. */
  lemma NonPolygonIgnored(area: AreaFn, a: seq<Feature>, f: Feature, b: seq<Feature>)
    requires AllWellFormed(a)
    requires AllWellFormed(b)
    requires !IsPolygon(f)
    ensures SnapshotSqFt(area, a + [f] + b) == SnapshotSqFt(area, a + b)
  {
    SnapshotSqFtAppend(area, a + [f], b);
    SnapshotSqFtAppend(area, a, b);
    assert (a + [f])[..|a|] == a;
  }

  /** The label lands on the first vertex of the last polygon in the snapshot. */
  lemma {:induction false} LabelAtLastPolygon(snapshot: seq<Feature>, before: Option<LatLng>, j: nat)
    requires AllWellFormed(snapshot)
    requires j < |snapshot| && IsPolygon(snapshot[j])
    requires forall k :: j < k < |snapshot| ==> !IsPolygon(snapshot[k])
    ensures LastLabel(snapshot, before) == Some(LatLng(snapshot[j].rings[0][0].lat, snapshot[j].rings[0][0].lng))
    decreases |snapshot|
  {
    if j < |snapshot| - 1 {
      LabelAtLastPolygon(snapshot[..|snapshot| - 1], before, j);
    }
  }

  /** A snapshot without polygons leaves the label where it was. */
  lemma {:induction false} LabelKeptWithoutPolygons(snapshot: seq<Feature>, before: Option<LatLng>)
    requires AllWellFormed(snapshot)
    requires forall k :: 0 <= k < |snapshot| ==> !IsPolygon(snapshot[k])
    ensures LastLabel(snapshot, before) == before
    decreases |snapshot|
  {
    if snapshot != [] {
      LabelKeptWithoutPolygons(snapshot[..|snapshot| - 1], before);
    }
  }

  /** The outer paths of the snapshot's polygons, in snapshot order. */
  function PolygonPaths(snapshot: seq<Feature>): (r: seq<Path>)
    requires AllWellFormed(snapshot)
    ensures |r| <= |snapshot|
    ensures forall p :: p in r <==> exists k :: 0 <= k < |snapshot| && IsPolygon(snapshot[k]) && p == OuterPath(snapshot[k])
    decreases |snapshot|
  {
    if snapshot == [] then []
    else
      var last := snapshot[|snapshot| - 1];
      var rest := PolygonPaths(snapshot[..|snapshot| - 1]);
      if IsPolygon(last) then rest + [OuterPath(last)] else rest
  }

  /**
   * The paths keep the snapshot's order: a single feature gives its own outer
   * path when it is a polygon and nothing otherwise, and the paths of two
   * snapshots side by side are the first's followed by the second's.
   */
  lemma {:induction false} PolygonPathsAppend(a: seq<Feature>, b: seq<Feature>)
    requires AllWellFormed(a) && AllWellFormed(b)
    ensures AllWellFormed(a + b)
    ensures PolygonPaths(a + b) == PolygonPaths(a) + PolygonPaths(b)
    ensures |b| == 1 ==> PolygonPaths(b) == if IsPolygon(b[0]) then [OuterPath(b[0])] else []
    decreases |b|
  {
    assert AllWellFormed(a + b) by {
      forall k | 0 <= k < |a + b|
        ensures WellFormed((a + b)[k])
      {
        if k >= |a| {
          assert (a + b)[k] == b[k - |a|];
        }
      }
    }
    if b == [] {
      assert a + b == a;
    } else {
      var b' := b[..|b| - 1];
      assert (a + b)[..|a + b| - 1] == a + b';
      PolygonPathsAppend(a, b');
      if |b| == 1 {
        assert b[..0] == [];
      }
    }
  }

  /**
   * App1.jsx has no three-vertex guard, so its total agrees with App.jsx's
   * aggregation over the same polygons when no ring is that short, as
   * closed rings from the drawing library never are.
   */
  lemma {:induction false} AgreesWithSessionTotal(area: AreaFn, snapshot: seq<Feature>)
    requires AllWellFormed(snapshot)
    requires forall k :: 0 <= k < |snapshot| && IsPolygon(snapshot[k]) ==> |snapshot[k].rings[0]| >= MinVertices
    ensures SnapshotSqFt(area, snapshot) == LawnCalculator.SumSqFt(area, PolygonPaths(snapshot))
    decreases |snapshot|
  {
    if snapshot != [] {
      var init, last := snapshot[..|snapshot| - 1], snapshot[|snapshot| - 1];
      AgreesWithSessionTotal(area, init);
      if IsPolygon(last) {
        var rest := PolygonPaths(init);
        assert (rest + [OuterPath(last)])[..|rest|] == rest;
      }
    }
  }

  /** The map and drawing state of App1.jsx's `LawnCalculator`. */
  class MapCalculator {
    /** The drawing library's store, as `getSnapshot()` returns it. */
    var features: seq<Feature>
    /** Whether the drawing library has been started (`drawRef.current`). */
    var drawReady: bool
    /** Whether the map has loaded (`mapRef.current`). */
    var mapReady: bool
    /** The map's zoom level, mirrored in `mapZoom`. */
    var zoom: int
    /** The owner's `totalArea`, set through `setTotalArea`. */
    var totalArea: int
    /** Where the area label is drawn; `None` is `null`. */
    var labelPosition: Option<LatLng>

    ghost predicate Valid()
      reads this
    {
      zoom <= MaxZoom && AllWellFormed(features) && (drawReady ==> mapReady)
    }

    /** The component's first render. */
    constructor ()
      ensures Valid()
      ensures features == [] && !drawReady && !mapReady
      ensures zoom == InitialZoom && totalArea == 0 && labelPosition == None
    {
      features, drawReady, mapReady := [], false, false;
      zoom, totalArea, labelPosition := InitialZoom, 0, None;
    }

    /** `onMapLoad`: the map is available through `mapRef`. */
    method OnMapLoad()
      requires Valid()
      modifies this`mapReady
      ensures Valid() && mapReady
    {
      mapReady := true;
    }

    /**
     * The drawing effect: once the map instance exists and the geometry
     * library is loaded, `initDraw` starts the drawing library with an empty
     * store; it never starts twice.
     */
    method InitDraw(geometryLoaded: bool)
      requires Valid()
      modifies this`drawReady, this`features
      ensures Valid()
      ensures drawReady <==> old(drawReady) || (mapReady && geometryLoaded)
      ensures features == if old(drawReady) || !(mapReady && geometryLoaded) then old(features) else []
    {
      if mapReady && !drawReady && geometryLoaded {
        drawReady := true;
        features := [];
      }
    }

    /** `handleDrawChange`: fold the snapshot into the total and the label. */
    method HandleDrawChange(area: AreaFn)
      requires Valid()
      modifies this`totalArea, this`labelPosition
      ensures Valid()
      ensures totalArea == SnapshotSqFt(area, features)
      ensures labelPosition == LastLabel(features, old(labelPosition))
    {
      var snapshot := features;
      var newTotalArea := 0;
      var i := 0;
      while i < |snapshot|
        invariant 0 <= i <= |snapshot|
        invariant newTotalArea == SnapshotSqFt(area, snapshot[..i])
        invariant labelPosition == LastLabel(snapshot[..i], old(labelPosition))
      {
        var feature := snapshot[i];
        assert snapshot[..i + 1][..i] == snapshot[..i];
        if feature.geometryType == "Polygon" {
          var path := OuterPath(feature);
          newTotalArea := newTotalArea + JsRound(area(path) * SqFtPerSqM);
          labelPosition := Some(LatLng(path[0].lat, path[0].lng));
        }
        i := i + 1;
      }
      assert snapshot[..i] == snapshot;
      totalArea := newTotalArea;
    }

    /**
     * The drawing library's "finish" and "change" events: its store now holds
     * `snapshot`, and `handleDrawChange` runs.
     */
    method StoreChanged(snapshot: seq<Feature>, area: AreaFn)
      requires Valid()
      requires drawReady
      requires AllWellFormed(snapshot)
      modifies this`features, this`totalArea, this`labelPosition
      ensures Valid()
      ensures features == snapshot
      ensures totalArea == SnapshotSqFt(area, snapshot)
      ensures labelPosition == LastLabel(snapshot, old(labelPosition))
    {
      features := snapshot;
      HandleDrawChange(area);
    }

    /** `handleClearAll`: empty the drawing (once started), zero total, no label. */
    method HandleClearAll()
      requires Valid()
      modifies this`features, this`totalArea, this`labelPosition
      ensures Valid()
      ensures features == if old(drawReady) then [] else old(features)
      ensures totalArea == 0 && labelPosition == None
    {
      if drawReady {
        features := [];
      }
      totalArea := 0;
      labelPosition := None;
    }

    /** `handleZoomIn`: one level deeper, only below the maximum and once the map is loaded. */
    method HandleZoomIn()
      requires Valid()
      modifies this`zoom
      ensures Valid()
      ensures zoom == if old(mapReady) && old(zoom) < MaxZoom then old(zoom) + 1 else old(zoom)
      ensures old(zoom) <= zoom <= MaxZoom
    {
      if mapReady {
        var currentZoom := zoom;
        if currentZoom < MaxZoom {
          zoom := currentZoom + 1;
        }
      }
    }
  }
}
