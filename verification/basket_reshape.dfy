/**
 * The basket net seen from both ends: the generator lays its control points out angle
 * by angle, ring by ring, and the primitive builder cuts a NURBS patch's flat point list
 * into rows of (degree_v + 1) points. With degree_u the generator's order and degree_v
 * one less than the number of rings, each row of the patch is exactly one angular
 * division of the net.
 */
module BasketReshape {
  import opened Wrappers
  import opened Floats
  import opened Indexing
  import opened SceneGraph
  import BasketNet
  import NurbsBuilder
  import PrimitiveBuilder

  /** The generated points as the control points of a patch declaration. */
  function AsControlPoints(points: seq<BasketNet.Point>): (r: seq<ControlPoint>)
    ensures |r| == |points|
    ensures forall k :: 0 <= k < |points| ==> r[k] == ControlPoint(points[k].x, points[k].y, points[k].z)
  {
    seq(|points|, k requires 0 <= k < |points| => ControlPoint(points[k].x, points[k].y, points[k].z))
  }

  /** The patch the emitted markup declares: degrees from the generator, 16 by 6 parts. */
  function BasketPatch(orderU: nat, rings: seq<BasketNet.Ring>, points: seq<BasketNet.Point>, distance: real): Nurbs
    requires 0 < |rings|
  {
    Nurbs(orderU, |rings| - 1, 16, 6, distance, AsControlPoints(points))
  }

  /** Row i, column j of the patch is the point of ring j at angular division i, with unit weight. */
  lemma BasketRowsAreRings(num: Numerics, orderU: nat, rings: seq<BasketNet.Ring>, points: seq<BasketNet.Point>, distance: real)
    requires 1 <= orderU && 0 < |rings|
    requires |points| == (orderU + 1) * |rings|
    requires forall i, j | 0 <= i <= orderU && 0 <= j < |rings| ::
               FlatIndex(|rings|, i, j) < |points| && points[FlatIndex(|rings|, i, j)] == BasketNet.PointAt(num, orderU + 1, rings, i, j)
    ensures PrimitiveBuilder.NurbsDescriptor(BasketPatch(orderU, rings, points, distance)).Ok?
    ensures var surface := PrimitiveBuilder.NurbsDescriptor(BasketPatch(orderU, rings, points, distance)).value.geometry.surface;
            |surface.points| == orderU + 1
            && forall i, j | 0 <= i <= orderU && 0 <= j < |rings| ::
                 j < |surface.points[i]|
                 && var p := BasketNet.PointAt(num, orderU + 1, rings, i, j);
                    surface.points[i][j] == NurbsBuilder.Vec4(p.x, p.y, p.z, 1.0)
  {
    var patch := BasketPatch(orderU, rings, points, distance);
    var surface := PrimitiveBuilder.NurbsDescriptor(patch).value.geometry.surface;
    PrimitiveBuilder.ControlGridHole(patch.controlpoints, patch.degreeU, patch.degreeV);
    forall i, j | 0 <= i <= orderU && 0 <= j < |rings|
      ensures j < |surface.points[i]|
      ensures var p := BasketNet.PointAt(num, orderU + 1, rings, i, j);
              surface.points[i][j] == NurbsBuilder.Vec4(p.x, p.y, p.z, 1.0)
    {
      PrimitiveBuilder.NurbsControlPoints(patch, i, j);
    }
  }

  /** Generating the net and building its patch: every row of the surface is one angular division. */
  method BasketSurface(num: Numerics, orderU: nat, rings: seq<BasketNet.Ring>, distance: real)
    returns (r: Result<NurbsBuilder.Surface, BasketNet.GenerationError>)
    requires 0 < |rings|
    ensures r.Err? <==> orderU == 0
    ensures r.Ok? ==> |r.value.points| == orderU + 1 && r.value.degree1 == orderU && r.value.degree2 == |rings| - 1
    ensures r.Ok? ==> forall i, j | 0 <= i <= orderU && 0 <= j < |rings| ::
              j < |r.value.points[i]|
              && var p := BasketNet.PointAt(num, orderU + 1, rings, i, j);
                 r.value.points[i][j] == NurbsBuilder.Vec4(p.x, p.y, p.z, 1.0)
  {
    var generated := BasketNet.Generate(num, orderU, rings);
    if generated.Err? {
      return Err(generated.error);
    }
    var patch := BasketPatch(orderU, rings, generated.value, distance);
    BasketRowsAreRings(num, orderU, rings, generated.value, distance);
    var built := PrimitiveBuilder.BuildNurbs(patch);
    PrimitiveBuilder.NurbsControlPoints(patch, 0, 0);
    return Ok(built.value.geometry.surface);
  }
}
