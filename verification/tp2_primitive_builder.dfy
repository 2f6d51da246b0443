/**
 * The first-cut primitive builder of the second practical class: a dispatch on
 * the representation's type to a renderer geometry, and the mesh that pairs it
 * with the context's materials. The geometries are the later builder's, without
 * the offset that builder moves rectangles and boxes by.
 */
module Tp2PrimitiveBuilder {
  import opened Wrappers
  import opened Floats
  import opened SceneGraph
  import PrimitiveBuilder

  type Geometry = PrimitiveBuilder.Geometry

  /**
   * The cylinder the renderer builds when every argument is `undefined`: its
   * defaults (radii 1, height 1, 32 radial and 1 height segment, a full turn)
   * except that `!undefined` makes it open-ended.
   */
  function DefaultCylinder(num: Numerics): (g: Geometry)
    ensures g.CylinderGeometry? && g.openEnded
  {
    PrimitiveBuilder.CylinderGeometry(1.0, 1.0, 1.0, 32, 1, true, 0.0, 2.0 * num.pi)
  }

  /**
   * `#buildGeometry`: cylinders, rectangles, triangles, spheres and boxes get
   * their own geometry; "nurbs" goes to the cylinder builder, which finds none of
   * its fields; any other type throws.
   */
  function BuildGeometry(num: Numerics, p: Primitive): (r: Result<Geometry, Error>)
    ensures r.Err? <==> p.Model3DPrimitive? || p.PolygonPrimitive?
    ensures r.Err? ==> r.error == UnsupportedRepresentation(Subtype(p))
    ensures p.NurbsPrimitive? ==> r == Ok(DefaultCylinder(num))
    ensures p.RectanglePrimitive? ==>
      (r.Ok? && r.value.PlaneGeometry? &&
       r.value.width == PrimitiveBuilder.Span(p.rectangle.xy1.x, p.rectangle.xy2.x) &&
       r.value.height == PrimitiveBuilder.Span(p.rectangle.xy1.y, p.rectangle.xy2.y))
    ensures p.BoxPrimitive? ==>
      (r.Ok? && r.value.BoxGeometry? &&
       r.value.width == PrimitiveBuilder.Span(p.box.xyz1.x, p.box.xyz2.x) &&
       r.value.height == PrimitiveBuilder.Span(p.box.xyz1.y, p.box.xyz2.y) &&
       r.value.depth == PrimitiveBuilder.Span(p.box.xyz1.z, p.box.xyz2.z))
    ensures p.TrianglePrimitive? ==>
      (r.Ok? && r.value.TriangleGeometry? &&
       r.value.positions == [p.triangle.xyz1.x, p.triangle.xyz1.y, p.triangle.xyz1.z,
                             p.triangle.xyz2.x, p.triangle.xyz2.y, p.triangle.xyz2.z,
                             p.triangle.xyz3.x, p.triangle.xyz3.y, p.triangle.xyz3.z])
  {
    match p
    case CylinderPrimitive(c) =>
      Ok(PrimitiveBuilder.CylinderGeometry(c.top, c.base, c.height, c.slices, c.stacks, !c.capsclose, c.thetastart, c.thetalength))
    case RectanglePrimitive(rect) =>
      Ok(PrimitiveBuilder.PlaneGeometry(
        Abs(rect.xy1.x - rect.xy2.x), Abs(rect.xy1.y - rect.xy2.y), rect.partsX, rect.partsY, Vec2(1.0, 1.0)))
    case TrianglePrimitive(t) =>
      Ok(PrimitiveBuilder.TriangleGeometry(
        [t.xyz1.x, t.xyz1.y, t.xyz1.z, t.xyz2.x, t.xyz2.y, t.xyz2.z, t.xyz3.x, t.xyz3.y, t.xyz3.z]))
    case SpherePrimitive(s) =>
      Ok(PrimitiveBuilder.SphereGeometry(s.radius, s.slices, s.stacks, s.phistart, s.philength, s.thetastart, s.thetalength))
    case NurbsPrimitive(_) => Ok(DefaultCylinder(num))
    case BoxPrimitive(b) =>
      Ok(PrimitiveBuilder.BoxGeometry(
        Abs(b.xyz1.x - b.xyz2.x), Abs(b.xyz1.y - b.xyz2.y), Abs(b.xyz1.z - b.xyz2.z), b.partsX, b.partsY, b.partsZ))
    case Model3DPrimitive(_) => Err(UnsupportedRepresentation(Subtype(p)))
    case PolygonPrimitive(_) => Err(UnsupportedRepresentation(Subtype(p)))
  }

  /**
   * Cylinders, triangles, spheres and boxes get the same geometry as in the later
   * builder; rectangles the same plane size and segments, without the texture
   * scaling.
   */
  lemma AgreesWithLaterBuilder(num: Numerics, p: Primitive)
    ensures p.CylinderPrimitive? ==> BuildGeometry(num, p) == Ok(PrimitiveBuilder.CylinderDescriptor(p.cylinder).geometry)
    ensures p.TrianglePrimitive? ==> BuildGeometry(num, p) == Ok(PrimitiveBuilder.TriangleDescriptor(p.triangle).geometry)
    ensures p.SpherePrimitive? ==> BuildGeometry(num, p) == Ok(PrimitiveBuilder.SphereDescriptor(p.sphere).geometry)
    ensures p.BoxPrimitive? ==> BuildGeometry(num, p) == Ok(PrimitiveBuilder.BoxDescriptor(p.box).geometry)
    ensures p.RectanglePrimitive? ==>
      (var g := PrimitiveBuilder.RectangleDescriptor(p.rectangle).geometry;
       g.PlaneGeometry? && BuildGeometry(num, p) == Ok(g.(uvScale := Vec2(1.0, 1.0))))
  {
  }

  /** Whether the renderer splits the geometry into material groups: its cylinders and boxes do, its planes, spheres and bare buffers do not. */
  predicate HasGroups(g: Geometry)
  {
    g.CylinderGeometry? || g.BoxGeometry?
  }

  /** The mesh's material argument: one material (or `undefined`), or the whole list. */
  datatype MeshMaterials<M> = Single(material: Option<M>) | PerGroup(materials: seq<M>)

  datatype Mesh<M> = Mesh(geometry: Geometry, materials: MeshMaterials<M>, receiveShadow: bool)

  /**
   * `buildRepresentation(representation, ctx)`. `activeMaterials` is `None` when
   * the context is missing or has no such field; reading it then throws, but
   * only after the geometry has been built.
   */
  function BuildRepresentation<M>(num: Numerics, p: Primitive, activeMaterials: Option<seq<M>>): (r: Result<Mesh<M>, Error>)
    ensures BuildGeometry(num, p).Err? ==> r == Err(BuildGeometry(num, p).error)
    ensures BuildGeometry(num, p).Ok? && activeMaterials.None? ==> r == Err(TypeError)
    ensures r.Ok? ==>
      (BuildGeometry(num, p).Ok? && activeMaterials.Some? &&
       r.value.geometry == BuildGeometry(num, p).value && r.value.receiveShadow)
    ensures r.Ok? && !HasGroups(r.value.geometry) ==>
      r.value.materials == Single(if |activeMaterials.value| == 0 then None else Some(activeMaterials.value[0]))
    ensures r.Ok? && HasGroups(r.value.geometry) ==> r.value.materials == PerGroup(activeMaterials.value)
  {
    match BuildGeometry(num, p)
    case Err(e) => Err(e)
    case Ok(geometry) =>
      match activeMaterials
      case None => Err(TypeError)
      case Some(materials) =>
        var chosen :=
          if !HasGroups(geometry) then Single(if |materials| == 0 then None else Some(materials[0]))
          else PerGroup(materials);
        Ok(Mesh(geometry, chosen, true))
  }

  /** Given materials, a representation builds exactly when its type is supported. */
  lemma BuildsWhenSupported<M>(num: Numerics, p: Primitive, materials: seq<M>)
    ensures BuildRepresentation(num, p, Some(materials)).Ok? <==> !(p.Model3DPrimitive? || p.PolygonPrimitive?)
  {
  }
}
