/**
 * The proj-2 primitive builder: the geometry each primitive subtype turns into, the
 * offset its mesh is placed at, the reshaping of a NURBS patch's flat control-point
 * list into a grid, and the mesh that combines geometry, material and shadow flags.
 */
module PrimitiveBuilder {
  import opened Wrappers
  import opened Floats
  import opened Indexing
  import opened SceneGraph
  import NurbsBuilder
  import Polygon
  import opened MaterialBuilder

  /** The renderer geometry built for a primitive, with the arguments it is constructed from. */
  datatype Geometry =
    | CylinderGeometry(
        radiusTop: real, radiusBottom: real, height: real, radialSegments: int, heightSegments: int,
        openEnded: bool, thetaStart: real, thetaLength: real)
      /** `uvScale` multiplies every texture coordinate of the plane. */
    | PlaneGeometry(width: real, height: real, widthSegments: int, heightSegments: int, uvScale: Vec2)
      /** The three corners' coordinates, one after the other. */
    | TriangleGeometry(positions: seq<real>)
    | SphereGeometry(
        radius: real, widthSegments: int, heightSegments: int,
        phiStart: real, phiLength: real, thetaStart: real, thetaLength: real)
    | NurbsGeometry(surface: NurbsBuilder.Surface)
    | BoxGeometry(width: real, height: real, depth: real, widthSegments: int, heightSegments: int, depthSegments: int)
    | PolygonGeometry(buffers: Polygon.Buffers)

  /** A geometry and the position its mesh is moved to. */
  datatype Descriptor = Descriptor(geometry: Geometry, offset: Vec3)

  const Origin := Vec3(0.0, 0.0, 0.0)

  /** The length of the interval between two coordinates. */
  function Span(a: real, b: real): (r: real)
    ensures r >= 0.0
  {
    Abs(a - b)
  }

  /** The midpoint of two coordinates. */
  function Centre(a: real, b: real): real
  {
    (a + b) / 2.0
  }

  /** An interval centred on the midpoint with the span as length runs from the smaller coordinate to the larger. */
  lemma CentredInterval(a: real, b: real)
    ensures Centre(a, b) - Span(a, b) / 2.0 == Min(a, b)
    ensures Centre(a, b) + Span(a, b) / 2.0 == Max(a, b)
  {
  }

  function CylinderDescriptor(c: Cylinder): (d: Descriptor)
    ensures d.geometry.CylinderGeometry? && d.offset == Origin
    ensures d.geometry.radiusTop == c.top && d.geometry.radiusBottom == c.base
    ensures d.geometry.openEnded <==> !c.capsclose
  {
    Descriptor(
      CylinderGeometry(c.top, c.base, c.height, c.slices, c.stacks, !c.capsclose, c.thetastart, c.thetalength),
      Origin)
  }

  /** A plane the size of the rectangle, moved to its centre, with texture coordinates scaled to its size. */
  function RectangleDescriptor(r: Rectangle): (d: Descriptor)
    ensures d.geometry.PlaneGeometry? && d.offset.z == 0.0
    ensures d.offset.x - d.geometry.width / 2.0 == Min(r.xy1.x, r.xy2.x)
    ensures d.offset.x + d.geometry.width / 2.0 == Max(r.xy1.x, r.xy2.x)
    ensures d.offset.y - d.geometry.height / 2.0 == Min(r.xy1.y, r.xy2.y)
    ensures d.offset.y + d.geometry.height / 2.0 == Max(r.xy1.y, r.xy2.y)
    ensures d.geometry.uvScale == Vec2(d.geometry.width, d.geometry.height)
  {
    var width := Span(r.xy1.x, r.xy2.x);
    var height := Span(r.xy1.y, r.xy2.y);
    CentredInterval(r.xy1.x, r.xy2.x);
    CentredInterval(r.xy1.y, r.xy2.y);
    Descriptor(
      PlaneGeometry(width, height, r.partsX, r.partsY, Vec2(width, height)),
      Vec3(Centre(r.xy1.x, r.xy2.x), Centre(r.xy1.y, r.xy2.y), 0.0))
  }

  /** Any two opposite corners describe the same rectangle. */
  lemma RectangleCornersInterchangeable(r: Rectangle)
    ensures RectangleDescriptor(r.(xy1 := r.xy2, xy2 := r.xy1)) == RectangleDescriptor(r)
    ensures RectangleDescriptor(r.(xy1 := Vec2(r.xy1.x, r.xy2.y), xy2 := Vec2(r.xy2.x, r.xy1.y))) == RectangleDescriptor(r)
  {
  }

  function TriangleDescriptor(t: Triangle): (d: Descriptor)
    ensures d.geometry.TriangleGeometry? && d.offset == Origin
    ensures |d.geometry.positions| == 9
    ensures d.geometry.positions[0..3] == [t.xyz1.x, t.xyz1.y, t.xyz1.z]
    ensures d.geometry.positions[3..6] == [t.xyz2.x, t.xyz2.y, t.xyz2.z]
    ensures d.geometry.positions[6..9] == [t.xyz3.x, t.xyz3.y, t.xyz3.z]
  {
    Descriptor(
      TriangleGeometry([t.xyz1.x, t.xyz1.y, t.xyz1.z, t.xyz2.x, t.xyz2.y, t.xyz2.z, t.xyz3.x, t.xyz3.y, t.xyz3.z]),
      Origin)
  }

  /** The sphere's longitude range comes from `phistart`/`philength`, its latitude range from `thetastart`/`thetalength`. */
  function SphereDescriptor(s: Sphere): (d: Descriptor)
    ensures d.geometry.SphereGeometry? && d.offset == Origin
    ensures d.geometry.widthSegments == s.slices && d.geometry.heightSegments == s.stacks
    ensures d.geometry.phiStart == s.phistart && d.geometry.phiLength == s.philength
    ensures d.geometry.thetaStart == s.thetastart && d.geometry.thetaLength == s.thetalength
  {
    Descriptor(
      SphereGeometry(s.radius, s.slices, s.stacks, s.phistart, s.philength, s.thetastart, s.thetalength),
      Origin)
  }

  /** A box the size of the one between the two corners, moved to its centre. */
  function BoxDescriptor(b: Box): (d: Descriptor)
    ensures d.geometry.BoxGeometry?
    ensures d.offset.x - d.geometry.width / 2.0 == Min(b.xyz1.x, b.xyz2.x)
    ensures d.offset.x + d.geometry.width / 2.0 == Max(b.xyz1.x, b.xyz2.x)
    ensures d.offset.y - d.geometry.height / 2.0 == Min(b.xyz1.y, b.xyz2.y)
    ensures d.offset.y + d.geometry.height / 2.0 == Max(b.xyz1.y, b.xyz2.y)
    ensures d.offset.z - d.geometry.depth / 2.0 == Min(b.xyz1.z, b.xyz2.z)
    ensures d.offset.z + d.geometry.depth / 2.0 == Max(b.xyz1.z, b.xyz2.z)
  {
    CentredInterval(b.xyz1.x, b.xyz2.x);
    CentredInterval(b.xyz1.y, b.xyz2.y);
    CentredInterval(b.xyz1.z, b.xyz2.z);
    Descriptor(
      BoxGeometry(
        Span(b.xyz1.x, b.xyz2.x), Span(b.xyz1.y, b.xyz2.y), Span(b.xyz1.z, b.xyz2.z),
        b.partsX, b.partsY, b.partsZ),
      Vec3(Centre(b.xyz1.x, b.xyz2.x), Centre(b.xyz1.y, b.xyz2.y), Centre(b.xyz1.z, b.xyz2.z)))
  }

  /** Swapping the two corners of a box changes nothing. */
  lemma BoxCornersInterchangeable(b: Box)
    ensures BoxDescriptor(b.(xyz1 := b.xyz2, xyz2 := b.xyz1)) == BoxDescriptor(b)
  {
  }

  /** The k-th declared control point as a coordinate list, or `undefined` past the end of the list. */
  function CellAt(points: seq<ControlPoint>, k: nat): NurbsBuilder.Cell
  {
    if k < |points| then Some([points[k].xx, points[k].yy, points[k].zz]) else None
  }

  /** The control grid, as a definition: (degreeU + 1) rows of (degreeV + 1) consecutive points. */
  function ControlGrid(points: seq<ControlPoint>, degreeU: nat, degreeV: nat): (r: seq<seq<NurbsBuilder.Cell>>)
    ensures |r| == degreeU + 1
    ensures forall i :: 0 <= i < |r| ==> |r[i]| == degreeV + 1
  {
    seq(degreeU + 1, i requires 0 <= i <= degreeU =>
      seq(degreeV + 1, v requires 0 <= v <= degreeV => CellAt(points, FlatIndex(degreeV + 1, i, v))))
  }

  /** The reshaping pass: one running counter walks the flat list while the grid is filled row by row. */
  method ReshapeControlPoints(points: seq<ControlPoint>, degreeU: nat, degreeV: nat)
    returns (cPoints: seq<seq<NurbsBuilder.Cell>>)
    ensures cPoints == ControlGrid(points, degreeU, degreeV)
  {
    cPoints := [];
    var k := 0;
    var i := 0;
    while i <= degreeU
      invariant i <= degreeU + 1 && |cPoints| == i && k == FlatIndex(degreeV + 1, i, 0)
      invariant forall a :: 0 <= a < i ==> cPoints[a] == ControlGrid(points, degreeU, degreeV)[a]
    {
      var subControlPoints := [];
      var v := 0;
      while v <= degreeV
        invariant v <= degreeV + 1 && |subControlPoints| == v && k == FlatIndex(degreeV + 1, i, v)
        invariant forall b :: 0 <= b < v ==> subControlPoints[b] == CellAt(points, FlatIndex(degreeV + 1, i, b))
      {
        subControlPoints := subControlPoints + [CellAt(points, k)];
        k := k + 1;
        v := v + 1;
      }
      assert k == FlatIndex(degreeV + 1, i + 1, 0);
      cPoints := cPoints + [subControlPoints];
      i := i + 1;
    }
  }

  /** The grid has a hole exactly when fewer points are declared than the patch's degrees need. */
  lemma ControlGridHole(points: seq<ControlPoint>, degreeU: nat, degreeV: nat)
    ensures NurbsBuilder.HasHole(ControlGrid(points, degreeU, degreeV)) <==> |points| < (degreeU + 1) * (degreeV + 1)
  {
    var grid: seq<seq<Option<seq<real>>>> := ControlGrid(points, degreeU, degreeV);
    if |points| < (degreeU + 1) * (degreeV + 1) {
      assert FlatIndex(degreeV + 1, degreeU, degreeV) == (degreeU + 1) * (degreeV + 1) - 1;
      assert grid[degreeU][degreeV].None?;
    } else {
      forall i, j | 0 <= i < |grid| && 0 <= j < |grid[i]| ensures grid[i][j].Some? {
        FlatIndexBelow(degreeV + 1, i, j, degreeU + 1);
      }
    }
  }

  /** The NURBS patch's geometry: the reshaped grid handed to the NURBS builder, parts as sample counts. */
  function NurbsDescriptor(n: Nurbs): (r: Result<Descriptor, Error>)
    ensures r.Err? <==> |n.controlpoints| < (n.degreeU + 1) * (n.degreeV + 1)
    ensures r.Err? ==> r.error == TypeError
    ensures r.Ok? ==> r.value.geometry.NurbsGeometry? && r.value.offset == Origin
  {
    ControlGridHole(n.controlpoints, n.degreeU, n.degreeV);
    match NurbsBuilder.SurfaceOf(ControlGrid(n.controlpoints, n.degreeU, n.degreeV), n.degreeU, n.degreeV, n.partsU, n.partsV)
    case Err(e) => Err(e)
    case Ok(surface) => Ok(Descriptor(NurbsGeometry(surface), Origin))
  }

  /** The builder's NURBS path: the reshaping pass, then the NURBS builder. */
  method BuildNurbs(n: Nurbs) returns (r: Result<Descriptor, Error>)
    ensures r == NurbsDescriptor(n)
  {
    var cPoints := ReshapeControlPoints(n.controlpoints, n.degreeU, n.degreeV);
    var surfaceData := NurbsBuilder.Build(cPoints, n.degreeU, n.degreeV, n.partsU, n.partsV);
    if surfaceData.Err? {
      return Err(surfaceData.error);
    }
    return Ok(Descriptor(NurbsGeometry(surfaceData.value), Origin));
  }

  /**
   * Each control point of the surface is the declared point with unit weight, read row
   * by row; declared points beyond the grid are ignored.
   */
  lemma NurbsControlPoints(n: Nurbs, i: nat, j: nat)
    requires NurbsDescriptor(n).Ok? && i <= n.degreeU && j <= n.degreeV
    ensures var surface := NurbsDescriptor(n).value.geometry.surface;
            var p := n.controlpoints[FlatIndex(n.degreeV + 1, i, j)];
            i < |surface.points| && j < |surface.points[i]|
            && surface.points[i][j] == NurbsBuilder.Vec4(p.xx, p.yy, p.zz, 1.0)
            && surface.degree1 == n.degreeU && surface.degree2 == n.degreeV
  {
    var grid := ControlGrid(n.controlpoints, n.degreeU, n.degreeV);
    var surface := NurbsDescriptor(n).value.geometry.surface;
    assert NurbsBuilder.SurfaceOf(grid, n.degreeU, n.degreeV, n.partsU, n.partsV) == Ok(surface);
    StackedCell(n.controlpoints, n.degreeU, n.degreeV, i, j);
  }

  /** A cell of the stacked control grid is the declared point it was cut from, with unit weight. */
  lemma StackedCell(points: seq<ControlPoint>, degreeU: nat, degreeV: nat, i: nat, j: nat)
    requires i <= degreeU && j <= degreeV
    requires NurbsBuilder.StackedGrid(ControlGrid(points, degreeU, degreeV)).Ok?
    ensures FlatIndex(degreeV + 1, i, j) < |points|
    ensures var p := points[FlatIndex(degreeV + 1, i, j)];
            var stacked := NurbsBuilder.StackedGrid(ControlGrid(points, degreeU, degreeV)).value;
            i < |stacked| && j < |stacked[i]| && stacked[i][j] == NurbsBuilder.Vec4(p.xx, p.yy, p.zz, 1.0)
  {
    var grid := ControlGrid(points, degreeU, degreeV);
    var k := FlatIndex(degreeV + 1, i, j);
    assert grid[i][j] == CellAt(points, k);
    var stacked := NurbsBuilder.StackedGrid(grid).value;
    assert grid[i][j].Some? && stacked[i][j] == NurbsBuilder.Stack(grid[i][j].value);
  }

  /**
   * The polygon's geometry: the vertex, index and colour buffers, placed at the origin,
   * with the index buffer seeded as the code seeds it. From two slices on every index
   * names a vertex; a single slice's fan triangle names the vertex one past the last.
   */
  function PolygonDescriptor(num: Numerics, p: PolygonSpec): (d: Descriptor)
    ensures d.geometry.PolygonGeometry? && d.offset == Origin
    ensures |d.geometry.buffers.positions| == |d.geometry.buffers.colors| == Polygon.VertexCount(p.slices, p.stacks)
    ensures |d.geometry.buffers.indices| == 3 * p.slices * (2 * p.stacks - 1)
    ensures 2 <= p.slices ==> forall i :: 0 <= i < |d.geometry.buffers.indices| ==>
              0 <= d.geometry.buffers.indices[i] < |d.geometry.buffers.positions|
    ensures p.slices == 1 ==> d.geometry.buffers.indices[2] == |d.geometry.buffers.positions|
  {
    var buffers := Polygon.PolygonBuffers(num, p, Polygon.AsWritten);
    Polygon.BufferLayout(num, p.radius, p.colorC, p.colorP, p.slices, p.stacks);
    Polygon.IndexCount(Polygon.AsWritten, p.slices, p.stacks);
    assert buffers.indices == Polygon.IndexBuffer(Polygon.AsWritten, p.slices, p.stacks, p.slices);
    assert |buffers.positions| == 1 + p.slices * p.stacks;
    var d := Descriptor(PolygonGeometry(buffers), Origin);
    if 2 <= p.slices then
      Polygon.IndicesInRangeAsWritten(p.slices, p.stacks);
      d
    else
      Polygon.SingleSliceOutOfRange(p.stacks);
      d
  }

  /** The geometry kind each subtype is built as. */
  predicate BuiltAs(p: Primitive, g: Geometry)
  {
    match p
    case CylinderPrimitive(_) => g.CylinderGeometry?
    case RectanglePrimitive(_) => g.PlaneGeometry?
    case TrianglePrimitive(_) => g.TriangleGeometry?
    case Model3DPrimitive(_) => false
    case SpherePrimitive(_) => g.SphereGeometry?
    case BoxPrimitive(_) => g.BoxGeometry?
    case NurbsPrimitive(_) => g.NurbsGeometry?
    case PolygonPrimitive(_) => g.PolygonGeometry?
  }

  /** The geometry of a primitive, by subtype; model files are not supported. */
  function BuildGeometry(num: Numerics, p: Primitive): (r: Result<Descriptor, Error>)
    ensures r.Err? <==> p.Model3DPrimitive? || (p.NurbsPrimitive? && |p.nurbs.controlpoints| < (p.nurbs.degreeU + 1) * (p.nurbs.degreeV + 1))
    ensures p.Model3DPrimitive? ==> r == Err(UnsupportedRepresentation("model3d"))
    ensures p.NurbsPrimitive? && r.Err? ==> r.error == TypeError
    ensures r.Ok? ==> BuiltAs(p, r.value.geometry)
    ensures r.Ok? && !p.RectanglePrimitive? && !p.BoxPrimitive? ==> r.value.offset == Origin
  {
    match p
    case CylinderPrimitive(c) => Ok(CylinderDescriptor(c))
    case RectanglePrimitive(rect) => Ok(RectangleDescriptor(rect))
    case TrianglePrimitive(t) => Ok(TriangleDescriptor(t))
    case SpherePrimitive(s) => Ok(SphereDescriptor(s))
    case NurbsPrimitive(n) => NurbsDescriptor(n)
    case BoxPrimitive(b) => Ok(BoxDescriptor(b))
    case PolygonPrimitive(polygon) => Ok(PolygonDescriptor(num, polygon))
    case Model3DPrimitive(_) => Err(UnsupportedRepresentation(Subtype(p)))
  }

  /** A mesh's material: a Phong material, or the renderer's default when none is given. */
  datatype MeshMaterial = PhongMaterial(material: Material) | DefaultBasicMaterial

  datatype Mesh = Mesh(geometry: Geometry, material: MeshMaterial, position: Vec3, castShadow: bool, receiveShadow: bool)

  /** What a primitive inherits from the nodes above it: the materials in force and the shadow flags. */
  datatype WorldContext = WorldContext(activeMaterials: seq<Material>, receiveShadows: bool, castShadows: bool)

  /**
   * The mesh of a primitive. It wears the first material in force; a polygon wears the
   * vertex-coloured material derived from it instead, and fails when there is none.
   */
  function BuildPrimitive(num: Numerics, p: Primitive, ctx: WorldContext): (r: Result<Mesh, Error>)
    ensures r.Err? <==> BuildGeometry(num, p).Err? || (p.PolygonPrimitive? && ctx.activeMaterials == [])
    ensures r.Err? && BuildGeometry(num, p).Err? ==> r.error == BuildGeometry(num, p).error
    ensures r.Err? && BuildGeometry(num, p).Ok? ==> r.error == TypeError
    ensures r.Ok? ==> r.value.geometry == BuildGeometry(num, p).value.geometry
                      && r.value.position == BuildGeometry(num, p).value.offset
    ensures r.Ok? ==> r.value.castShadow == ctx.castShadows && r.value.receiveShadow == ctx.receiveShadows
    ensures r.Ok? && !p.PolygonPrimitive? ==>
              r.value.material == (if ctx.activeMaterials == [] then DefaultBasicMaterial else PhongMaterial(ctx.activeMaterials[0]))
    ensures r.Ok? && p.PolygonPrimitive? ==> r.value.material == PhongMaterial(PolygonMaterial(ctx.activeMaterials[0]))
  {
    var descriptor :- BuildGeometry(num, p);
    var activeMaterial := if ctx.activeMaterials == [] then None else Some(ctx.activeMaterials[0]);
    if p.PolygonPrimitive? && activeMaterial.None? then Err(TypeError)
    else
      var material :=
        if p.PolygonPrimitive? then PhongMaterial(PolygonMaterial(activeMaterial.value))
        else if activeMaterial.None? then DefaultBasicMaterial
        else PhongMaterial(activeMaterial.value);
      Ok(Mesh(descriptor.geometry, material, descriptor.offset, ctx.castShadows, ctx.receiveShadows))
  }

  /** Only the first material in force is used; the rest of the list is ignored. */
  lemma OnlyFirstMaterialUsed(num: Numerics, p: Primitive, ctx: WorldContext)
    requires ctx.activeMaterials != []
    ensures BuildPrimitive(num, p, ctx) == BuildPrimitive(num, p, ctx.(activeMaterials := ctx.activeMaterials[..1]))
  {
  }

  /**
   * A built polygon mesh has one colour per vertex, and from two slices on only ever
   * refers to vertices it has; with a single slice its first triangle refers to the
   * vertex one past the last.
   */
  lemma PolygonMeshWellFormed(num: Numerics, p: PolygonSpec, ctx: WorldContext)
    requires BuildPrimitive(num, PolygonPrimitive(p), ctx).Ok?
    ensures var buffers := BuildPrimitive(num, PolygonPrimitive(p), ctx).value.geometry.buffers;
            |buffers.positions| == |buffers.colors|
            && (2 <= p.slices ==> forall i :: 0 <= i < |buffers.indices| ==> 0 <= buffers.indices[i] < |buffers.positions|)
            && (p.slices == 1 ==> 3 <= |buffers.indices| && buffers.indices[2] == |buffers.positions|)
  {
  }
}
