/**
 * The control grids the older NURBS factories hand to their surface builder.
 * A grid is a sequence of rows, each a sequence of three-component points; the
 * builder call itself (knots, surface evaluation) belongs to the library and is
 * kept as a plain record of its arguments.
 */
module ControlGrids {

  datatype Point = Point(x: real, y: real, z: real)

  type Grid = seq<seq<Point>>

  /** The arguments of one `nurbsBuilder.build(controlPoints, orderU, orderV, samplesU, samplesV)` call. */
  datatype SurfaceRequest = SurfaceRequest(points: Grid, degreeU: nat, degreeV: nat, samplesU: nat, samplesV: nat)

  /** The `__width`, `__height` and `__depth` properties the factories attach to what they build. */
  datatype Dims = Dims(width: real, height: real, depth: real)

  /** Every row of `g` holds `cols` points. */
  predicate Rectangular(g: Grid, rows: nat, cols: nat)
  {
    |g| == rows && forall i :: 0 <= i < |g| ==> |g[i]| == cols
  }

  /** The grid has one row per degree-u step plus one, each of one point per degree-v step plus one. */
  predicate MatchesDegrees(r: SurfaceRequest)
  {
    Rectangular(r.points, r.degreeU + 1, r.degreeV + 1)
  }

  /**
   * JavaScript's in-place `Array.prototype.reverse`, as a value: the first element moves
   * behind the reversed rest. Element i of the result is element |s| - 1 - i of `s`.
   */
  function Reverse<T>(s: seq<T>): (r: seq<T>)
    ensures |r| == |s|
    ensures forall i :: 0 <= i < |s| ==> r[i] == s[|s| - 1 - i]
  {
    if s == [] then [] else Reverse(s[1..]) + [s[0]]
  }

  lemma ReverseInvolution<T>(s: seq<T>)
    ensures Reverse(Reverse(s)) == s
  {
  }

  /** `rows.forEach(row => row.reverse())`. */
  function ReverseEachRow(g: Grid): (r: Grid)
    ensures |r| == |g|
    ensures forall i :: 0 <= i < |g| ==> r[i] == Reverse(g[i])
  {
    seq(|g|, i requires 0 <= i < |g| => Reverse(g[i]))
  }
}
