/**
 * The scene description the proj-2 parser consumes, after the XML reader has turned
 * it into records: vectors, colours, primitive representations, transformations,
 * the node tree, and the texture, material and light declarations.
 */
module SceneGraph {
  import opened Wrappers

  datatype Vec2 = Vec2(x: real, y: real)
  datatype Vec3 = Vec3(x: real, y: real, z: real)

  /** A colour with an alpha component. */
  datatype Color = Color(r: real, g: real, b: real, a: real)

  /** A NURBS control point as declared in the scene file. */
  datatype ControlPoint = ControlPoint(xx: real, yy: real, zz: real)

  datatype Cylinder = Cylinder(
    base: real, top: real, height: real, slices: int, stacks: int,
    capsclose: bool, thetastart: real, thetalength: real, distance: real)

  datatype Rectangle = Rectangle(xy1: Vec2, xy2: Vec2, partsX: int, partsY: int, distance: real)

  datatype Triangle = Triangle(xyz1: Vec3, xyz2: Vec3, xyz3: Vec3, distance: real)

  datatype Model3D = Model3D(filepath: string, distance: real)

  datatype Sphere = Sphere(
    radius: real, slices: int, stacks: int, thetastart: real, thetalength: real,
    phistart: real, philength: real, distance: real)

  datatype Box = Box(xyz1: Vec3, xyz2: Vec3, partsX: int, partsY: int, partsZ: int, distance: real)

  datatype Nurbs = Nurbs(
    degreeU: nat, degreeV: nat, partsU: int, partsV: int, distance: real,
    controlpoints: seq<ControlPoint>)

  /** A count the scene file gives as a positive integer. */
  type Positive = n: nat | 1 <= n witness 1

  datatype PolygonSpec = PolygonSpec(radius: real, stacks: Positive, slices: Positive, colorC: Color, colorP: Color)

  /** A primitive node: its subtype tag together with its single representation. */
  datatype Primitive =
    | CylinderPrimitive(cylinder: Cylinder)
    | RectanglePrimitive(rectangle: Rectangle)
    | TrianglePrimitive(triangle: Triangle)
    | Model3DPrimitive(model: Model3D)
    | SpherePrimitive(sphere: Sphere)
    | BoxPrimitive(box: Box)
    | NurbsPrimitive(nurbs: Nurbs)
    | PolygonPrimitive(polygon: PolygonSpec)

  function Subtype(p: Primitive): string
  {
    match p
    case CylinderPrimitive(_) => "cylinder"
    case RectanglePrimitive(_) => "rectangle"
    case TrianglePrimitive(_) => "triangle"
    case Model3DPrimitive(_) => "model3d"
    case SpherePrimitive(_) => "sphere"
    case BoxPrimitive(_) => "box"
    case NurbsPrimitive(_) => "nurbs"
    case PolygonPrimitive(_) => "polygon"
  }

  datatype Transformation =
    | Translate(translate: Vec3)
    | Rotate(rotation: Vec3)
    | Scale(scale: Vec3)

  /**
   * A light declaration. The tag stays text: the parser hands every node whose tag it
   * does not recognise to the light builder, which accepts only three tags. Fields a
   * given kind of light does not declare are ignored by the builder.
   */
  datatype LightSpec = LightSpec(
    kind: string, id: string, color: Color, position: Vec3, enabled: bool,
    intensity: real, distance: real, decay: real,
    castshadow: bool, shadowfar: real, shadowmapsize: real,
    target: Vec3, angle: real, penumbra: real,
    shadowleft: real, shadowright: real, shadowbottom: real, shadowtop: real)

  datatype Node =
    | CompositeNode(
        id: string, castShadows: bool, receiveShadows: bool, materialIds: seq<string>,
        transformations: seq<Transformation>, children: seq<Node>)
    | PrimitiveNode(primitive: Primitive)
    | LodNode(id: string, levels: seq<LodNodeRef>)
    | LightNode(light: LightSpec)

  datatype LodNodeRef = LodNodeRef(mindist: real, node: Node)

  datatype TextureSpec = TextureSpec(
    id: string, filepath: string, isVideo: bool, magFilter: string, minFilter: string,
    mipmaps: bool, anisotropy: real,
    mipmap0: Option<string>, mipmap1: Option<string>, mipmap2: Option<string>, mipmap3: Option<string>,
    mipmap4: Option<string>, mipmap5: Option<string>, mipmap6: Option<string>, mipmap7: Option<string>)

  datatype MaterialSpec = MaterialSpec(
    id: string, color: Color, specular: Color, emissive: Color, shininess: real,
    wireframe: bool, shading: string, textureref: Option<string>,
    texlengthS: real, texlengthT: real, twosided: bool,
    bumpref: Option<string>, bumpscale: real, specularref: Option<string>)

  /**
   * The parts of the scene data the parser's core reads; the keyed records of the
   * scene file are kept as sequences of entries in declaration order.
   */
  datatype Data = Data(
    rootId: string, nodes: map<string, Node>,
    textures: seq<TextureSpec>, materials: seq<MaterialSpec>)

  /** Everything the modelled code throws. */
  datatype Error =
    | UnsupportedRepresentation(subtype: string)
    | MaterialNotFound(id: string)
    | InvalidFilter
    | InvalidVisualizationMode(mode: string)
    | NotANode
    /** Reading a property of `undefined`. */
    | TypeError
    /** The `RangeError` of recursion deeper than the call stack. */
    | CallStackExhausted

  /** The message text each error carries. */
  function Message(e: Error): string
  {
    match e
    case UnsupportedRepresentation(subtype) => "Representation of type " + subtype + " not supported."
    case MaterialNotFound(id) => "Could not find material with id " + id
    case InvalidFilter => "Invalid filter"
    case InvalidVisualizationMode(mode) => "Invalid visualization mode " + mode
    case NotANode => "Object is not a node"
    case TypeError => "Cannot read properties of undefined"
    case CallStackExhausted => "Maximum call stack size exceeded"
  }
}
