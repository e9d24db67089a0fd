/**
 * Coordinate pairs as the component handles them: two-element number tuples whose two
 * components are never computed with, only read and reordered.  A registry coordinate is
 * `[lat, lon]`; a point of a route geometry returned by the routing service is `[lon, lat]`.
 */
module Geometry {

  /** A tuple `[first, second]`. */
  datatype Pair = Pair(first: real, second: real)

  /** The per-point callback `coord => [coord[1], coord[0]]` of the route geometry `.map`. */
  function Swap(p: Pair): Pair {
    Pair(p.second, p.first)
  }

  /** The whole geometry converted from `[lon, lat]` to `[lat, lon]` order, point by point. */
  function SwapAll(points: seq<Pair>): (r: seq<Pair>)
    ensures |r| == |points|
    ensures forall i :: 0 <= i < |points| ==> r[i] == Swap(points[i])
  {
    if points == [] then [] else [Swap(points[0])] + SwapAll(points[1..])
  }

  /** Swapping the axes twice gives back the original geometry. */
  lemma SwapAllInvolutive(points: seq<Pair>)
    ensures SwapAll(SwapAll(points)) == points
  {
  }
}
