/**
 * Coordinates, paths and the per-path area in square feet.
 *
 * The geodesic area itself (`google.maps.geometry.spherical.computeArea`) is
 * a foreign, floating-point routine; the model takes it as a parameter of type
 * `AreaFn`, about which it knows only that it is never negative.
 */
module Geometry {

  /** A map coordinate, as the `{ lat, lng }` objects of the source. */
  datatype LatLng = LatLng(lat: real, lng: real)

  /** An ordered vertex list; the ring is implicitly closed. */
  type Path = seq<LatLng>

  /** The geodesic area of a path in square metres, as the maps library computes it. */
  type AreaFn = f: Path -> real | forall p :: f(p) >= 0.0 witness (p: Path) => 0.0

  /** Square feet per square metre, the factor both app variants use. */
  const SqFtPerSqM: real := 10.7639

  /** Fewest vertices a path needs before App.jsx counts its area. */
  const MinVertices: nat := 3

  /**
   * JavaScript's `Math.round`: the nearest integer, halves rounded up
   * (towards positive infinity), i.e. floor(x + 1/2).
   */
  function JsRound(x: real): (r: int)
    ensures x - 0.5 < r as real <= x + 0.5
  {
    (x + 0.5).Floor
  }

  /** The rounded square-foot area of one path of square-metre area `m2`. */
  function SqFt(m2: real): (r: int)
    requires m2 >= 0.0
    ensures r >= 0
    ensures m2 * SqFtPerSqM - 0.5 < r as real <= m2 * SqFtPerSqM + 0.5
  {
    JsRound(m2 * SqFtPerSqM)
  }
}
