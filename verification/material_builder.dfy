/**
 * The proj-2 material builder: a Phong material from a material declaration and the
 * built textures, the vertex-coloured material polygons use, and the listener every
 * material registers for switching between its declared, wireframe and filled look.
 */
module MaterialBuilder {
  import opened Wrappers
  import opened Floats
  import opened SceneGraph
  import opened TextureBuilder

  /** A colour without alpha, as the renderer stores it. */
  datatype Rgb = Rgb(r: real, g: real, b: real)

  function RgbOf(c: Color): Rgb
  {
    Rgb(c.r, c.g, c.b)
  }

  datatype Side = FrontSide | BackSide | DoubleSide

  /** A texture copied into a material slot, with its repeat factors. */
  datatype MappedTexture = MappedTexture(texture: Texture, repeatS: Extended, repeatT: Extended)

  /** The fields of a Phong material the builders set. */
  datatype Material = Material(
    name: string, color: Rgb, opacity: real, transparent: bool,
    emissive: Rgb, flatShading: bool, shininess: real, specular: Rgb,
    side: Side, wireframe: bool, vertexColors: bool,
    colorMap: Option<MappedTexture>, specularMap: Option<MappedTexture>,
    bumpMap: Option<MappedTexture>, bumpScale: real)

  /** A freshly constructed Phong material. */
  const PhongDefaults: Material := Material(
    "", Rgb(1.0, 1.0, 1.0), 1.0, false,
    Rgb(0.0, 0.0, 0.0), false, 30.0, Rgb(17.0 / 255.0, 17.0 / 255.0, 17.0 / 255.0),
    FrontSide, false, false, None, None, None, 1.0)

  /** A reference counts only when it is present and not empty text. */
  predicate Used(reference: Option<string>)
  {
    reference.Some? && reference.value != ""
  }

  /** A used reference whose texture was never built. */
  predicate Dangling(reference: Option<string>, textures: map<string, Texture>)
  {
    Used(reference) && reference.value !in textures
  }

  /**
   * The texture in a map slot: none for an unused reference, a copy of the named texture
   * otherwise, and a failure when the name is unknown (the copy is taken of nothing).
   */
  function MapSlot(reference: Option<string>, textures: map<string, Texture>, repeatS: Extended, repeatT: Extended)
    : (r: Result<Option<MappedTexture>, Error>)
    ensures r.Err? <==> Dangling(reference, textures)
    ensures r.Err? ==> r.error == TypeError
    ensures r.Ok? ==> (r.value.Some? <==> Used(reference))
    ensures r.Ok? && r.value.Some? ==> r.value.value == MappedTexture(textures[reference.value], repeatS, repeatT)
  {
    if !Used(reference) then Ok(None)
    else if reference.value !in textures then Err(TypeError)
    else Ok(Some(MappedTexture(textures[reference.value], repeatS, repeatT)))
  }

  /** The material's options before any texture is attached. */
  function Unmapped(spec: MaterialSpec): (m: Material)
    ensures m.name == spec.id && m.color == RgbOf(spec.color) && m.opacity == spec.color.a && m.transparent
    ensures m.emissive == RgbOf(spec.emissive) && m.specular == RgbOf(spec.specular)
    ensures m.shininess == spec.shininess && m.wireframe == spec.wireframe && !m.vertexColors
    ensures (m.flatShading <==> spec.shading == "flat") && m.bumpScale == 1.0
    ensures m.side == (if spec.twosided then DoubleSide else FrontSide)
  {
    PhongDefaults.(
      name := spec.id, color := RgbOf(spec.color), opacity := spec.color.a, transparent := true,
      emissive := RgbOf(spec.emissive), flatShading := spec.shading == "flat",
      shininess := spec.shininess, specular := RgbOf(spec.specular),
      side := if spec.twosided then DoubleSide else FrontSide, wireframe := spec.wireframe)
  }

  /** The Phong material for a material declaration. */
  function BuildMaterial(spec: MaterialSpec, textures: map<string, Texture>): (r: Result<Material, Error>)
    ensures r.Err? <==>
      Dangling(spec.textureref, textures) || Dangling(spec.specularref, textures) || Dangling(spec.bumpref, textures)
    ensures r.Err? ==> r.error == TypeError
    ensures r.Ok? ==> (r.value.name == spec.id && r.value.color == RgbOf(spec.color)
                       && r.value.opacity == spec.color.a && r.value.transparent
                       && r.value.emissive == RgbOf(spec.emissive) && r.value.specular == RgbOf(spec.specular)
                       && r.value.shininess == spec.shininess && r.value.wireframe == spec.wireframe
                       && !r.value.vertexColors)
    ensures r.Ok? ==> (r.value.flatShading <==> spec.shading == "flat")
    ensures r.Ok? ==> r.value.side == (if spec.twosided then DoubleSide else FrontSide)
    ensures r.Ok? ==> ((r.value.colorMap.Some? <==> Used(spec.textureref))
                       && (r.value.specularMap.Some? <==> Used(spec.specularref))
                       && (r.value.bumpMap.Some? <==> Used(spec.bumpref)))
    ensures r.Ok? && Used(spec.textureref) ==>
      spec.textureref.value in textures && r.value.colorMap.value.texture == textures[spec.textureref.value]
      && r.value.colorMap.value.repeatS == Reciprocal(spec.texlengthS)
      && r.value.colorMap.value.repeatT == Reciprocal(spec.texlengthT)
    ensures r.Ok? && Used(spec.specularref) ==>
      spec.specularref.value in textures && r.value.specularMap.value.texture == textures[spec.specularref.value]
      && r.value.specularMap.value.repeatS == Reciprocal(spec.texlengthS)
      && r.value.specularMap.value.repeatT == Reciprocal(spec.texlengthT)
    ensures r.Ok? && Used(spec.bumpref) ==>
      spec.bumpref.value in textures && r.value.bumpMap.value == MappedTexture(textures[spec.bumpref.value], Finite(1.0), Finite(1.0))
    ensures r.Ok? ==> r.value.bumpScale == (if Used(spec.bumpref) then spec.bumpscale else 1.0)
  {
    var material := Unmapped(spec);
    var colorMap :- MapSlot(spec.textureref, textures, Reciprocal(spec.texlengthS), Reciprocal(spec.texlengthT));
    var specularMap :- MapSlot(spec.specularref, textures, Reciprocal(spec.texlengthS), Reciprocal(spec.texlengthT));
    var bumpMap :- MapSlot(spec.bumpref, textures, Finite(1.0), Finite(1.0));
    Ok(material.(
      colorMap := colorMap, specularMap := specularMap, bumpMap := bumpMap,
      bumpScale := if bumpMap.Some? then spec.bumpscale else material.bumpScale))
  }

  /** A reference given as empty text is treated exactly as a missing one. */
  lemma EmptyReferenceIgnored(spec: MaterialSpec, textures: map<string, Texture>)
    ensures BuildMaterial(spec.(textureref := Some("")), textures) == BuildMaterial(spec.(textureref := None), textures)
    ensures BuildMaterial(spec.(specularref := Some("")), textures) == BuildMaterial(spec.(specularref := None), textures)
    ensures BuildMaterial(spec.(bumpref := Some("")), textures) == BuildMaterial(spec.(bumpref := None), textures)
  {
  }

  /** The texture table matters only through the textures the declaration uses. */
  lemma OnlyUsedTexturesMatter(spec: MaterialSpec, textures: map<string, Texture>, others: map<string, Texture>)
    requires forall reference :: reference in [spec.textureref, spec.specularref, spec.bumpref] && Used(reference) ==>
               (reference.value in textures <==> reference.value in others)
               && (reference.value in textures ==> textures[reference.value] == others[reference.value])
    ensures BuildMaterial(spec, textures) == BuildMaterial(spec, others)
  {
    assert spec.textureref in [spec.textureref, spec.specularref, spec.bumpref];
    assert spec.specularref in [spec.textureref, spec.specularref, spec.bumpref];
    assert spec.bumpref in [spec.textureref, spec.specularref, spec.bumpref];
  }

  /** A declaration that uses no texture builds, whatever textures exist. */
  lemma UntexturedAlwaysBuilds(spec: MaterialSpec, textures: map<string, Texture>)
    requires !Used(spec.textureref) && !Used(spec.specularref) && !Used(spec.bumpref)
    ensures BuildMaterial(spec, textures).Ok?
    ensures BuildMaterial(spec, textures) == BuildMaterial(spec, map[])
  {
  }

  /**
   * The material of a polygon: it keeps the shading, wireframe and side of the
   * material in force and takes its colours from the vertices.
   */
  function PolygonMaterial(active: Material): (r: Material)
    ensures r.flatShading == active.flatShading && r.wireframe == active.wireframe && r.side == active.side
    ensures r.vertexColors && r.transparent
    ensures r.colorMap.None? && r.specularMap.None? && r.bumpMap.None?
  {
    PhongDefaults.(
      flatShading := active.flatShading, wireframe := active.wireframe, side := active.side,
      vertexColors := true, transparent := true)
  }

  /** The polygon material forgets everything else about the material it was made from. */
  lemma PolygonMaterialDependsOnLook(a: Material, b: Material)
    requires a.flatShading == b.flatShading && a.wireframe == b.wireframe && a.side == b.side
    ensures PolygonMaterial(a) == PolygonMaterial(b)
  {
  }

  /** The three visualization modes. */
  datatype Mode = AsIs | Wireframe | Fill

  function ModeName(m: Mode): string
  {
    match m
    case AsIs => "as-is"
    case Wireframe => "wireframe"
    case Fill => "fill"
  }

  function ModeOf(name: string): (r: Option<Mode>)
    ensures r.Some? ==> ModeName(r.value) == name
  {
    if name == "as-is" then Some(AsIs)
    else if name == "wireframe" then Some(Wireframe)
    else if name == "fill" then Some(Fill)
    else None
  }

  lemma ModeNamesRoundTrip(m: Mode)
    ensures ModeOf(ModeName(m)) == Some(m)
  {
  }

  /** A material together with the wireframe flag it had when its listener was registered. */
  datatype Registered = Registered(initialWireframe: bool, material: Material)

  function Register(m: Material): (r: Registered)
    ensures r.material == m && r.initialWireframe == m.wireframe
  {
    Registered(m.wireframe, m)
  }

  /** One listener reacting to a visualization-mode event. */
  function OnMode(name: string, entry: Registered): (r: Result<Registered, Error>)
    ensures r.Err? <==> ModeOf(name).None?
    ensures r.Err? ==> r.error == InvalidVisualizationMode(name)
    ensures r.Ok? ==> r.value.initialWireframe == entry.initialWireframe
    ensures r.Ok? ==> r.value.material == entry.material.(wireframe := r.value.material.wireframe)
  {
    match ModeOf(name)
    case None => Err(InvalidVisualizationMode(name))
    case Some(AsIs) => Ok(entry.(material := entry.material.(wireframe := entry.initialWireframe)))
    case Some(Wireframe) => Ok(entry.(material := entry.material.(wireframe := true)))
    case Some(Fill) => Ok(entry.(material := entry.material.(wireframe := false)))
  }

  /** What each mode means: the declared look, always lines, or always filled. */
  lemma ModeMeaning(mode: Mode, entry: Registered)
    ensures OnMode(ModeName(mode), entry).Ok?
    ensures OnMode(ModeName(mode), entry).value.material.wireframe
            == (match mode case AsIs => entry.initialWireframe case Wireframe => true case Fill => false)
  {
  }

  /** Setting a mode twice is setting it once. */
  lemma OnModeIdempotent(name: string, entry: Registered)
    requires OnMode(name, entry).Ok?
    ensures OnMode(name, OnMode(name, entry).value) == OnMode(name, entry)
  {
  }

  /** Only the last mode counts: the outcome does not depend on earlier switches. */
  lemma LastModeWins(first: string, second: string, entry: Registered)
    requires OnMode(first, entry).Ok?
    ensures OnMode(second, OnMode(first, entry).value) == OnMode(second, entry)
  {
  }

  /** Going back to the declared look undoes any switch on a freshly registered material. */
  lemma AsIsRestores(name: string, m: Material)
    requires OnMode(name, Register(m)).Ok?
    ensures OnMode("as-is", OnMode(name, Register(m)).value) == Ok(Register(m))
  {
  }

  /**
   * An event reaches the listeners in registration order; the first listener that
   * throws ends the dispatch, and the error reaches the sender.
   */
  function Dispatch(name: string, entries: seq<Registered>): (r: Result<seq<Registered>, Error>)
    ensures r.Err? <==> ModeOf(name).None? && entries != []
    ensures r.Ok? ==> |r.value| == |entries|
    ensures r.Ok? && ModeOf(name).Some? ==> forall i :: 0 <= i < |entries| ==> OnMode(name, entries[i]) == Ok(r.value[i])
  {
    if entries == [] then Ok([])
    else
      match OnMode(name, entries[0])
      case Err(e) => Err(e)
      case Ok(head) =>
        match Dispatch(name, entries[1..])
        case Err(e) => Err(e)
        case Ok(tail) =>
          assert forall i :: 1 <= i < |entries| ==> entries[i] == entries[1..][i - 1];
          Ok([head] + tail)
  }

  /** An unknown mode with nobody listening goes unnoticed. */
  lemma UnknownModeWithoutListeners(name: string)
    requires ModeOf(name).None?
    ensures Dispatch(name, []) == Ok([])
  {
  }

  /** Switching every material to the wireframe look and back restores all of them. */
  lemma {:induction false} DispatchRoundTrip(name: string, materials: seq<Material>)
    requires ModeOf(name).Some?
    ensures Dispatch(name, RegisterAll(materials)).Ok?
    ensures Dispatch("as-is", Dispatch(name, RegisterAll(materials)).value) == Ok(RegisterAll(materials))
  {
    var registered := RegisterAll(materials);
    var switched := Dispatch(name, registered).value;
    var restored := Dispatch("as-is", switched);
    assert |restored.value| == |registered|;
    forall i | 0 <= i < |registered| ensures restored.value[i] == registered[i] {
      assert Ok(switched[i]) == OnMode(name, Register(materials[i]));
      assert Ok(restored.value[i]) == OnMode("as-is", switched[i]);
      AsIsRestores(name, materials[i]);
    }
    assert restored.value == registered;
  }

  function RegisterAll(materials: seq<Material>): (r: seq<Registered>)
    ensures |r| == |materials|
    ensures forall i :: 0 <= i < |materials| ==> r[i] == Register(materials[i])
  {
    seq(|materials|, i requires 0 <= i < |materials| => Register(materials[i]))
  }
}
