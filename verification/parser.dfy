/**
 * The proj-2 scene-graph parser: textures, then materials, are built into tables keyed
 * by id; the tree is then walked from the root node, each composite node refining the
 * context its children see (materials in force, shadow flags), each LOD node marking its
 * levels, each primitive resolving the materials in force, and each light recording its
 * switch state under its id.
 */
module Parser {
  import opened Wrappers
  import opened Floats
  import opened SceneGraph
  import opened TextureBuilder
  import opened MaterialBuilder
  import opened PrimitiveBuilder
  import opened LightBuilder

  /** What a node passes down to the nodes below it. */
  datatype ParsingContext = ParsingContext(
    activeMaterials: seq<string>, receiveShadows: bool, castShadows: bool, withinLod: bool)

  /** The root is visited with no material in force, no shadows and outside any LOD. */
  const RootContext := ParsingContext([], false, false, false)

  /** The objects the parser builds. */
  datatype Object3D =
    | Group(children: seq<Object3D>, transformations: seq<Transformation>)
    | MeshObject(mesh: Mesh)
    | LevelsOfDetail(levels: seq<Level>)
    | LightObject3D(light: BuiltLight)

  datatype Level = Level(node: Object3D, distance: real)

  /** A visit's result together with the light states recorded so far. */
  datatype Visited<T> = Visited(built: T, states: map<string, bool>)

  // ----- the texture and material tables

  /** Every entry from `i` on has a different key: entry `i` is the last with its key. */
  predicate LastWithKey<S>(specs: seq<S>, key: S -> string, i: nat)
    requires i < |specs|
  {
    forall j :: i < j < |specs| ==> key(specs[j]) != key(specs[i])
  }

  /**
   * A table built entry by entry in declaration order; a later entry with the same key
   * replaces an earlier one, and the first entry that fails to build ends the pass.
   */
  function BuildTable<S, T>(specs: seq<S>, key: S -> string, build: S -> Result<T, Error>)
    : Result<map<string, T>, Error>
  {
    if specs == [] then Ok(map[])
    else
      var table :- BuildTable(specs[..|specs| - 1], key, build);
      var entry :- build(specs[|specs| - 1]);
      Ok(table[key(specs[|specs| - 1]) := entry])
  }

  /** The table builds exactly when every entry does. */
  lemma {:induction false} BuildTableOk<S, T>(specs: seq<S>, key: S -> string, build: S -> Result<T, Error>)
    ensures BuildTable(specs, key, build).Ok? <==> forall i :: 0 <= i < |specs| ==> build(specs[i]).Ok?
  {
    if specs != [] {
      var n := |specs| - 1;
      BuildTableOk(specs[..n], key, build);
      assert forall i :: 0 <= i < n ==> specs[..n][i] == specs[i];
    }
  }

  /** A failing table reports the error of its first failing entry. */
  lemma {:induction false} BuildTableError<S, T>(specs: seq<S>, key: S -> string, build: S -> Result<T, Error>)
    requires BuildTable(specs, key, build).Err?
    ensures exists i :: 0 <= i < |specs| && build(specs[i]) == Err(BuildTable(specs, key, build).error)
                        && forall j :: 0 <= j < i ==> build(specs[j]).Ok?
  {
    var n := |specs| - 1;
    assert forall i :: 0 <= i < n ==> specs[..n][i] == specs[i];
    if BuildTable(specs[..n], key, build).Err? {
      BuildTableError(specs[..n], key, build);
      var i :| 0 <= i < n && build(specs[..n][i]) == Err(BuildTable(specs[..n], key, build).error)
               && forall j :: 0 <= j < i ==> build(specs[..n][j]).Ok?;
      assert build(specs[i]) == Err(BuildTable(specs, key, build).error);
    } else {
      BuildTableOk(specs[..n], key, build);
      assert build(specs[n]) == Err(BuildTable(specs, key, build).error);
    }
  }

  /** The table's keys are the keys of the entries. */
  lemma {:induction false} BuildTableKeys<S, T>(specs: seq<S>, key: S -> string, build: S -> Result<T, Error>)
    requires BuildTable(specs, key, build).Ok?
    ensures BuildTable(specs, key, build).value.Keys == set i | 0 <= i < |specs| :: key(specs[i])
  {
    if specs != [] {
      var n := |specs| - 1;
      BuildTableKeys(specs[..n], key, build);
      var keys := set i | 0 <= i < |specs| :: key(specs[i]);
      var prefixKeys := set i | 0 <= i < n :: key(specs[..n][i]);
      assert keys == prefixKeys + {key(specs[n])} by {
        forall k | k in keys ensures k in prefixKeys + {key(specs[n])} {
          var i :| 0 <= i < |specs| && key(specs[i]) == k;
          if i < n {
            assert key(specs[..n][i]) == k;
          }
        }
        forall k | k in prefixKeys ensures k in keys {
          var i :| 0 <= i < n && key(specs[..n][i]) == k;
          assert key(specs[i]) == k;
        }
      }
    }
  }

  /** The entry kept under a key is the one built from the last entry with that key. */
  lemma {:induction false} BuildTableLastWins<S, T>(specs: seq<S>, key: S -> string, build: S -> Result<T, Error>, i: nat)
    requires BuildTable(specs, key, build).Ok? && i < |specs| && LastWithKey(specs, key, i)
    ensures key(specs[i]) in BuildTable(specs, key, build).value && build(specs[i]).Ok?
    ensures BuildTable(specs, key, build).value[key(specs[i])] == build(specs[i]).value
  {
    BuildTableOk(specs, key, build);
    var n := |specs| - 1;
    if i < n {
      assert specs[..n][i] == specs[i];
      assert LastWithKey(specs[..n], key, i);
      BuildTableLastWins(specs[..n], key, build, i);
    }
  }

  function TextureKey(spec: TextureSpec): string { spec.id }

  function MaterialKey(spec: MaterialSpec): string { spec.id }

  /** The texture table: it fails exactly when some declared texture names an unknown filter. */
  function BuildTextures(specs: seq<TextureSpec>): (r: Result<map<string, Texture>, Error>)
    ensures r.Ok? <==> forall i :: 0 <= i < |specs| ==> BuildTexture(specs[i]).Ok?
    ensures r.Err? ==> r.error == InvalidFilter
  {
    var r := BuildTable(specs, TextureKey, BuildTexture);
    BuildTableOk(specs, TextureKey, BuildTexture);
    if r.Err? then BuildTableError(specs, TextureKey, BuildTexture); r else r
  }

  /**
   * The material table, built against the complete texture table: it fails exactly when
   * some declared material uses a texture that is not in it.
   */
  function BuildMaterials(specs: seq<MaterialSpec>, textures: map<string, Texture>): (r: Result<map<string, Material>, Error>)
    ensures r.Ok? <==> forall i :: 0 <= i < |specs| ==> BuildMaterial(specs[i], textures).Ok?
    ensures r.Err? ==> r.error == TypeError
  {
    var build := (spec: MaterialSpec) => BuildMaterial(spec, textures);
    var r := BuildTable(specs, MaterialKey, build);
    BuildTableOk(specs, MaterialKey, build);
    if r.Err? then BuildTableError(specs, MaterialKey, build); r else r
  }

  // ----- the traversal

  /** The materials named by the ids in force, in order; the first unknown id fails. */
  function ResolveMaterials(ids: seq<string>, materials: map<string, Material>): (r: Result<seq<Material>, Error>)
    ensures r.Ok? <==> forall i :: 0 <= i < |ids| ==> ids[i] in materials
    ensures r.Ok? ==> |r.value| == |ids| && forall i :: 0 <= i < |ids| ==> r.value[i] == materials[ids[i]]
    ensures r.Err? ==> exists i :: 0 <= i < |ids| && ids[i] !in materials && r.error == MaterialNotFound(ids[i])
                                  && forall j :: 0 <= j < i ==> ids[j] in materials
  {
    if ids == [] then Ok([])
    else if ids[0] !in materials then Err(MaterialNotFound(ids[0]))
    else
      match ResolveMaterials(ids[1..], materials)
      case Err(e) =>
        assert forall i :: 1 <= i < |ids| ==> ids[i] == ids[1..][i - 1];
        Err(e)
      case Ok(rest) =>
        assert forall i :: 1 <= i < |ids| ==> ids[i] == ids[1..][i - 1];
        Ok([materials[ids[0]]] + rest)
  }

  /** The context a composite node gives its children. */
  function CompositeContext(node: Node, ctx: ParsingContext): (c: ParsingContext)
    requires node.CompositeNode?
    ensures c.withinLod == ctx.withinLod
  {
    ctx.(activeMaterials := if node.materialIds == [] then ctx.activeMaterials else node.materialIds,
         castShadows := node.castShadows || ctx.castShadows,
         receiveShadows := node.receiveShadows || ctx.receiveShadows)
  }

  /** The context a primitive's mesh is built in: the resolved materials and the shadow flags. */
  function PrimitiveContext(ctx: ParsingContext, materials: map<string, Material>): Result<WorldContext, Error>
  {
    var active :- ResolveMaterials(ctx.activeMaterials, materials);
    Ok(WorldContext(active, ctx.receiveShadows, ctx.castShadows))
  }

  /**
   * How a light node records its switch state: as the code does, from the object the
   * light builder returns, or from the light itself.
   */
  datatype Variant = AsWritten | Corrected

  function Recorded(variant: Variant, built: BuiltLight): bool
  {
    if variant == AsWritten then RecordedStateAsWritten(built) else RecordedState(built)
  }

  /**
   * A node: composite, primitive and LOD nodes have their own visitors, everything else
   * is a light.
   */
  function Visit(num: Numerics, variant: Variant, materials: map<string, Material>, node: Node, ctx: ParsingContext, states: map<string, bool>)
    : (r: Result<Visited<Object3D>, Error>)
    ensures r.Ok? && node.CompositeNode? ==>
              r.value.built.Group? && |r.value.built.children| == |node.children|
              && r.value.built.transformations == node.transformations
    ensures r.Ok? && node.PrimitiveNode? ==> r.value.built.MeshObject? && r.value.states == states
    ensures r.Ok? && node.LodNode? ==> r.value.built.LevelsOfDetail? && |r.value.built.levels| == |node.levels|
    ensures node.LightNode? ==> (r.Ok? <==> KindOf(node.light.kind).Some?)
    ensures r.Ok? && node.LightNode? ==>
              r.value.built == LightObject3D(BuildLight(node.light).value) && node.light.id in r.value.states
    decreases node
  {
    match node
    case CompositeNode(_, _, _, _, transformations, children) =>
      var visited :- VisitAll(num, variant, materials, children, CompositeContext(node, ctx), states);
      Ok(Visited(Group(visited.built, transformations), visited.states))
    case PrimitiveNode(primitive) =>
      var world :- PrimitiveContext(ctx, materials);
      var mesh :- BuildPrimitive(num, primitive, world);
      Ok(Visited(MeshObject(mesh), states))
    case LodNode(_, levels) =>
      var visited :- VisitLevels(num, variant, materials, levels, ctx.(withinLod := true), states);
      Ok(Visited(LevelsOfDetail(visited.built), visited.states))
    case LightNode(spec) =>
      var built :- BuildLight(spec);
      Ok(Visited(LightObject3D(built), states[spec.id := Recorded(variant, built)]))
  }

  /** A composite node's children, in order, all in the same context. */
  function VisitAll(num: Numerics, variant: Variant, materials: map<string, Material>, nodes: seq<Node>, ctx: ParsingContext, states: map<string, bool>)
    : (r: Result<Visited<seq<Object3D>>, Error>)
    ensures r.Ok? ==> |r.value.built| == |nodes|
    decreases nodes
  {
    if nodes == [] then Ok(Visited([], states))
    else
      var first :- Visit(num, variant, materials, nodes[0], ctx, states);
      var rest :- VisitAll(num, variant, materials, nodes[1..], ctx, first.states);
      Ok(Visited([first.built] + rest.built, rest.states))
  }

  /** An LOD node's levels, in order, each keeping its minimum distance. */
  function VisitLevels(num: Numerics, variant: Variant, materials: map<string, Material>, levels: seq<LodNodeRef>, ctx: ParsingContext, states: map<string, bool>)
    : (r: Result<Visited<seq<Level>>, Error>)
    ensures r.Ok? ==> |r.value.built| == |levels|
    ensures r.Ok? ==> forall i :: 0 <= i < |levels| ==> r.value.built[i].distance == levels[i].mindist
    decreases levels
  {
    if levels == [] then Ok(Visited([], states))
    else
      var first :- VisitLevel(num, variant, materials, levels[0], ctx, states);
      var rest :- VisitLevels(num, variant, materials, levels[1..], ctx, first.states);
      assert forall i :: 1 <= i < |levels| ==> levels[i] == levels[1..][i - 1];
      Ok(Visited([first.built] + rest.built, rest.states))
  }

  /** One level of an LOD node. */
  function VisitLevel(num: Numerics, variant: Variant, materials: map<string, Material>, level: LodNodeRef, ctx: ParsingContext, states: map<string, bool>)
    : (r: Result<Visited<Level>, Error>)
    ensures r.Ok? ==> r.value.built.distance == level.mindist
    decreases level
  {
    var visited :- Visit(num, variant, materials, level.node, ctx, states);
    Ok(Visited(Level(visited.built, level.mindist), visited.states))
  }

  /** The parse result: the scene group and the recorded light states. */
  datatype Parsed = Parsed(scene: Object3D, lightStates: map<string, bool>)

  /** Textures, then materials, then the tree from the root node in the root context. */
  function Parse(num: Numerics, data: Data): (r: Result<Parsed, Error>)
    ensures BuildTextures(data.textures).Err? ==> r == Err(BuildTextures(data.textures).error)
    ensures BuildTextures(data.textures).Ok? && BuildMaterials(data.materials, BuildTextures(data.textures).value).Err? ==>
              r.Err? && r.error == TypeError
    ensures r.Ok? ==> data.rootId in data.nodes
    ensures (BuildTextures(data.textures).Ok? && BuildMaterials(data.materials, BuildTextures(data.textures).value).Ok?
             && data.rootId !in data.nodes) ==> r == Err(TypeError)
    ensures r.Ok? ==> r.value.scene.Group? && |r.value.scene.children| == 1
  {
    var textures :- BuildTextures(data.textures);
    var materials :- BuildMaterials(data.materials, textures);
    if data.rootId !in data.nodes then Err(TypeError)
    else
      var root :- Visit(num, AsWritten, materials, data.nodes[data.rootId], RootContext, map[]);
      Ok(Parsed(Group([root.built], []), root.states))
  }

  /**
   * Once both tables build and the root exists, parsing is visiting the root in the
   * root context from an empty light record: it fails exactly when that visit fails,
   * with its error, and otherwise the scene's one child is the visited root.
   */
  lemma ParseVisitsRoot(num: Numerics, data: Data)
    requires BuildTextures(data.textures).Ok?
    requires BuildMaterials(data.materials, BuildTextures(data.textures).value).Ok?
    requires data.rootId in data.nodes
    ensures var v := Visit(num, AsWritten, BuildMaterials(data.materials, BuildTextures(data.textures).value).value,
                           data.nodes[data.rootId], RootContext, map[]);
            var r := Parse(num, data);
            (r.Ok? <==> v.Ok?)
            && (v.Err? ==> r == Err(v.error))
            && (v.Ok? ==> r.value.scene == Group([v.value.built], []) && r.value.lightStates == v.value.states)
  {
  }

  // ----- the context below a chain of composite nodes

  /** The context the children of the last node of a chain of composite nodes see, starting from the root's. */
  function ContextBelow(path: seq<Node>): ParsingContext
    requires forall i :: 0 <= i < |path| ==> path[i].CompositeNode?
  {
    if path == [] then RootContext
    else CompositeContext(path[|path| - 1], ContextBelow(path[..|path| - 1]))
  }

  /** The material ids in force below a chain: those of the innermost node that names any, else none. */
  function InForce(path: seq<Node>): seq<string>
    requires forall i :: 0 <= i < |path| ==> path[i].CompositeNode?
  {
    if path == [] then []
    else if path[|path| - 1].materialIds != [] then path[|path| - 1].materialIds
    else InForce(path[..|path| - 1])
  }

  /** Materials are inherited until a node names its own, which then replace the inherited ones. */
  lemma {:induction false} ContextBelowMaterials(path: seq<Node>)
    requires forall i :: 0 <= i < |path| ==> path[i].CompositeNode?
    ensures ContextBelow(path).activeMaterials == InForce(path)
  {
    if path != [] {
      ContextBelowMaterials(path[..|path| - 1]);
    }
  }

  /** A shadow flag is on below a chain exactly when some node of the chain sets it; it is never switched off. */
  lemma {:induction false} ContextBelowShadows(path: seq<Node>)
    requires forall i :: 0 <= i < |path| ==> path[i].CompositeNode?
    ensures ContextBelow(path).castShadows <==> exists i :: 0 <= i < |path| && path[i].castShadows
    ensures ContextBelow(path).receiveShadows <==> exists i :: 0 <= i < |path| && path[i].receiveShadows
    ensures !ContextBelow(path).withinLod
  {
    if path != [] {
      var n := |path| - 1;
      ContextBelowShadows(path[..n]);
      assert forall i :: 0 <= i < n ==> path[..n][i] == path[i];
    }
  }

  // ----- the meshes of a built tree and their shadow flags

  datatype ShadowFlags = ShadowFlags(cast: bool, receive: bool)

  /** The meshes of a built object, in traversal order. */
  function Meshes(o: Object3D): seq<Mesh>
    decreases o
  {
    match o
    case Group(children, _) => MeshesAll(children)
    case MeshObject(mesh) => [mesh]
    case LevelsOfDetail(levels) => MeshesLevels(levels)
    case LightObject3D(_) => []
  }

  function MeshesAll(os: seq<Object3D>): seq<Mesh>
    decreases os
  {
    if os == [] then [] else Meshes(os[0]) + MeshesAll(os[1..])
  }

  function MeshesLevels(levels: seq<Level>): seq<Mesh>
    decreases levels
  {
    if levels == [] then [] else MeshesLevel(levels[0]) + MeshesLevels(levels[1..])
  }

  function MeshesLevel(level: Level): seq<Mesh>
    decreases level
  {
    Meshes(level.node)
  }

  function Flags(meshes: seq<Mesh>): (r: seq<ShadowFlags>)
    ensures |r| == |meshes|
    ensures forall i :: 0 <= i < |meshes| ==> r[i] == ShadowFlags(meshes[i].castShadow, meshes[i].receiveShadow)
  {
    seq(|meshes|, i requires 0 <= i < |meshes| => ShadowFlags(meshes[i].castShadow, meshes[i].receiveShadow))
  }

  lemma FlagsAppend(a: seq<Mesh>, b: seq<Mesh>)
    ensures Flags(a + b) == Flags(a) + Flags(b)
  {
    assert forall i :: 0 <= i < |a + b| ==> Flags(a + b)[i] == (Flags(a) + Flags(b))[i];
  }

  /**
   * The shadow flags each primitive of a tree is declared to have, in traversal order:
   * each composite node ORs its own flags into those it inherits.
   */
  function DeclaredShadows(node: Node, cast: bool, receive: bool): (r: seq<ShadowFlags>)
    ensures cast ==> forall i :: 0 <= i < |r| ==> r[i].cast
    ensures receive ==> forall i :: 0 <= i < |r| ==> r[i].receive
    decreases node
  {
    match node
    case CompositeNode(_, castShadows, receiveShadows, _, _, children) =>
      DeclaredShadowsAll(children, cast || castShadows, receive || receiveShadows)
    case PrimitiveNode(_) => [ShadowFlags(cast, receive)]
    case LodNode(_, levels) => DeclaredShadowsLevels(levels, cast, receive)
    case LightNode(_) => []
  }

  function DeclaredShadowsAll(nodes: seq<Node>, cast: bool, receive: bool): (r: seq<ShadowFlags>)
    ensures cast ==> forall i :: 0 <= i < |r| ==> r[i].cast
    ensures receive ==> forall i :: 0 <= i < |r| ==> r[i].receive
    decreases nodes
  {
    if nodes == [] then []
    else DeclaredShadows(nodes[0], cast, receive) + DeclaredShadowsAll(nodes[1..], cast, receive)
  }

  function DeclaredShadowsLevels(levels: seq<LodNodeRef>, cast: bool, receive: bool): (r: seq<ShadowFlags>)
    ensures cast ==> forall i :: 0 <= i < |r| ==> r[i].cast
    ensures receive ==> forall i :: 0 <= i < |r| ==> r[i].receive
    decreases levels
  {
    if levels == [] then []
    else DeclaredShadowsLevel(levels[0], cast, receive) + DeclaredShadowsLevels(levels[1..], cast, receive)
  }

  function DeclaredShadowsLevel(level: LodNodeRef, cast: bool, receive: bool): (r: seq<ShadowFlags>)
    ensures cast ==> forall i :: 0 <= i < |r| ==> r[i].cast
    ensures receive ==> forall i :: 0 <= i < |r| ==> r[i].receive
    decreases level
  {
    DeclaredShadows(level.node, cast, receive)
  }

  /** The meshes of a visited node carry exactly the declared shadow flags. */
  lemma {:induction false} VisitShadows(num: Numerics, variant: Variant, materials: map<string, Material>, node: Node, ctx: ParsingContext, states: map<string, bool>)
    requires Visit(num, variant, materials, node, ctx, states).Ok?
    ensures Flags(Meshes(Visit(num, variant, materials, node, ctx, states).value.built))
            == DeclaredShadows(node, ctx.castShadows, ctx.receiveShadows)
    decreases node
  {
    match node
    case CompositeNode(_, _, _, _, _, children) =>
      VisitAllShadows(num, variant, materials, children, CompositeContext(node, ctx), states);
    case PrimitiveNode(_) =>
    case LodNode(_, levels) =>
      VisitLevelsShadows(num, variant, materials, levels, ctx.(withinLod := true), states);
    case LightNode(_) =>
  }

  lemma {:induction false} VisitAllShadows(num: Numerics, variant: Variant, materials: map<string, Material>, nodes: seq<Node>, ctx: ParsingContext, states: map<string, bool>)
    requires VisitAll(num, variant, materials, nodes, ctx, states).Ok?
    ensures Flags(MeshesAll(VisitAll(num, variant, materials, nodes, ctx, states).value.built))
            == DeclaredShadowsAll(nodes, ctx.castShadows, ctx.receiveShadows)
    decreases nodes
  {
    if nodes != [] {
      var first := Visit(num, variant, materials, nodes[0], ctx, states).value;
      var rest := VisitAll(num, variant, materials, nodes[1..], ctx, first.states).value;
      VisitShadows(num, variant, materials, nodes[0], ctx, states);
      VisitAllShadows(num, variant, materials, nodes[1..], ctx, first.states);
      assert ([first.built] + rest.built)[1..] == rest.built;
      FlagsAppend(Meshes(first.built), MeshesAll(rest.built));
    }
  }

  lemma {:induction false} VisitLevelsShadows(num: Numerics, variant: Variant, materials: map<string, Material>, levels: seq<LodNodeRef>, ctx: ParsingContext, states: map<string, bool>)
    requires VisitLevels(num, variant, materials, levels, ctx, states).Ok?
    ensures Flags(MeshesLevels(VisitLevels(num, variant, materials, levels, ctx, states).value.built))
            == DeclaredShadowsLevels(levels, ctx.castShadows, ctx.receiveShadows)
    decreases levels
  {
    if levels != [] {
      var first := VisitLevel(num, variant, materials, levels[0], ctx, states).value;
      var rest := VisitLevels(num, variant, materials, levels[1..], ctx, first.states).value;
      VisitLevelShadows(num, variant, materials, levels[0], ctx, states);
      VisitLevelsShadows(num, variant, materials, levels[1..], ctx, first.states);
      assert ([first.built] + rest.built)[1..] == rest.built;
      FlagsAppend(MeshesLevel(first.built), MeshesLevels(rest.built));
    }
  }

  lemma {:induction false} VisitLevelShadows(num: Numerics, variant: Variant, materials: map<string, Material>, level: LodNodeRef, ctx: ParsingContext, states: map<string, bool>)
    requires VisitLevel(num, variant, materials, level, ctx, states).Ok?
    ensures Flags(MeshesLevel(VisitLevel(num, variant, materials, level, ctx, states).value.built))
            == DeclaredShadowsLevel(level, ctx.castShadows, ctx.receiveShadows)
    decreases level
  {
    VisitShadows(num, variant, materials, level.node, ctx, states);
  }

  // ----- the recorded light states

  /** The light declarations of a tree, in traversal order. */
  function LightSpecs(node: Node): seq<LightSpec>
    decreases node
  {
    match node
    case CompositeNode(_, _, _, _, _, children) => LightSpecsAll(children)
    case PrimitiveNode(_) => []
    case LodNode(_, levels) => LightSpecsLevels(levels)
    case LightNode(spec) => [spec]
  }

  function LightSpecsAll(nodes: seq<Node>): seq<LightSpec>
    decreases nodes
  {
    if nodes == [] then [] else LightSpecs(nodes[0]) + LightSpecsAll(nodes[1..])
  }

  function LightSpecsLevels(levels: seq<LodNodeRef>): seq<LightSpec>
    decreases levels
  {
    if levels == [] then [] else LightSpecsLevel(levels[0]) + LightSpecsLevels(levels[1..])
  }

  function LightSpecsLevel(level: LodNodeRef): seq<LightSpec>
    decreases level
  {
    LightSpecs(level.node)
  }

  /**
   * The switch state a light declaration leaves in the record. As written, that is the
   * visibility of the object the light builder returns: a spot or directional light comes
   * back wrapped in a fresh group, which is visible, so only a point light records its
   * declared `enabled`. Corrected, every light records its declared `enabled`.
   */
  function DeclaredState(variant: Variant, spec: LightSpec): bool
  {
    if variant == AsWritten then spec.enabled || spec.kind != "pointlight" else spec.enabled
  }

  /** Each declaration in turn records its switch state under its id. */
  function Record(variant: Variant, states: map<string, bool>, specs: seq<LightSpec>): map<string, bool>
    decreases |specs|
  {
    if specs == [] then states
    else Record(variant, states[specs[0].id := DeclaredState(variant, specs[0])], specs[1..])
  }

  lemma {:induction false} RecordAppend(variant: Variant, states: map<string, bool>, a: seq<LightSpec>, b: seq<LightSpec>)
    ensures Record(variant, states, a + b) == Record(variant, Record(variant, states, a), b)
    decreases |a|
  {
    if a != [] {
      assert (a + b)[1..] == a[1..] + b;
      RecordAppend(variant, states[a[0].id := DeclaredState(variant, a[0])], a[1..], b);
    } else {
      assert a + b == b;
    }
  }

  /**
   * After recording, an id is present exactly when it was before or some declaration
   * has it, and it holds the state its last declaration records: as written, "on" for
   * every spot or directional light, and the declared `enabled` for a point light.
   */
  lemma RecordContents(variant: Variant, states: map<string, bool>, specs: seq<LightSpec>)
    ensures Record(variant, states, specs).Keys == states.Keys + set i | 0 <= i < |specs| :: specs[i].id
    ensures forall i :: 0 <= i < |specs| && (forall j :: i < j < |specs| ==> specs[j].id != specs[i].id) ==>
              Record(variant, states, specs)[specs[i].id]
              == (if variant == AsWritten then specs[i].enabled || specs[i].kind != "pointlight" else specs[i].enabled)
    ensures forall id :: id in states && (forall i :: 0 <= i < |specs| ==> specs[i].id != id) ==>
              Record(variant, states, specs)[id] == states[id]
  {
    RecordKeys(variant, states, specs);
    forall i | 0 <= i < |specs| && (forall j :: i < j < |specs| ==> specs[j].id != specs[i].id)
      ensures Record(variant, states, specs)[specs[i].id] == DeclaredState(variant, specs[i])
    {
      RecordLast(variant, states, specs, i);
    }
    forall id | id in states && (forall i :: 0 <= i < |specs| ==> specs[i].id != id)
      ensures Record(variant, states, specs)[id] == states[id]
    {
      RecordUntouched(variant, states, specs, id);
    }
  }

  /** Recording adds exactly the declared ids. */
  lemma {:induction false} RecordKeys(variant: Variant, states: map<string, bool>, specs: seq<LightSpec>)
    ensures Record(variant, states, specs).Keys == states.Keys + set i | 0 <= i < |specs| :: specs[i].id
    decreases |specs|
  {
    if specs != [] {
      var tail := specs[1..];
      RecordKeys(variant, states[specs[0].id := DeclaredState(variant, specs[0])], tail);
      var ids := set i | 0 <= i < |specs| :: specs[i].id;
      var tailIds := set i | 0 <= i < |tail| :: tail[i].id;
      assert ids == {specs[0].id} + tailIds by {
        forall id | id in ids ensures id in {specs[0].id} + tailIds {
          var i :| 0 <= i < |specs| && specs[i].id == id;
          if i > 0 {
            assert tail[i - 1].id == id;
          }
        }
        forall id | id in tailIds ensures id in ids {
          var i :| 0 <= i < |tail| && tail[i].id == id;
          assert specs[i + 1].id == id;
        }
      }
    }
  }

  /**
   * The last declaration of an id decides its recorded state: as written, a spot or
   * directional light is recorded on even when declared disabled.
   */
  lemma {:induction false} RecordLast(variant: Variant, states: map<string, bool>, specs: seq<LightSpec>, i: nat)
    requires i < |specs|
    requires forall j :: i < j < |specs| ==> specs[j].id != specs[i].id
    ensures specs[i].id in Record(variant, states, specs)
    ensures variant == Corrected ==> Record(variant, states, specs)[specs[i].id] == specs[i].enabled
    ensures variant == AsWritten ==>
              Record(variant, states, specs)[specs[i].id] == (specs[i].enabled || specs[i].kind != "pointlight")
    decreases |specs|
  {
    var next := states[specs[0].id := DeclaredState(variant, specs[0])];
    var tail := specs[1..];
    if i > 0 {
      assert tail[i - 1] == specs[i];
      assert forall j :: i - 1 < j < |tail| ==> tail[j] == specs[j + 1];
      RecordLast(variant, next, tail, i - 1);
    } else {
      assert forall j :: 0 <= j < |tail| ==> tail[j] == specs[j + 1];
      RecordUntouched(variant, next, tail, specs[0].id);
    }
  }

  /** An id no declaration names keeps its earlier state. */
  lemma {:induction false} RecordUntouched(variant: Variant, states: map<string, bool>, specs: seq<LightSpec>, id: string)
    requires id in states
    requires forall i :: 0 <= i < |specs| ==> specs[i].id != id
    ensures id in Record(variant, states, specs)
    ensures Record(variant, states, specs)[id] == states[id]
    decreases |specs|
  {
    if specs != [] {
      var tail := specs[1..];
      assert forall i :: 0 <= i < |tail| ==> tail[i] == specs[i + 1];
      RecordUntouched(variant, states[specs[0].id := DeclaredState(variant, specs[0])], tail, id);
    }
  }

  /**
   * A visit records the switch state of every light below the node, in traversal order:
   * as written, the state `DeclaredState` gives it; corrected, its declared `enabled`.
   */
  lemma {:induction false} VisitRecordsLights(num: Numerics, variant: Variant, materials: map<string, Material>, node: Node, ctx: ParsingContext, states: map<string, bool>)
    requires Visit(num, variant, materials, node, ctx, states).Ok?
    ensures Visit(num, variant, materials, node, ctx, states).value.states == Record(variant, states, LightSpecs(node))
    decreases node
  {
    match node
    case CompositeNode(_, _, _, _, _, children) =>
      VisitAllRecordsLights(num, variant, materials, children, CompositeContext(node, ctx), states);
    case PrimitiveNode(_) =>
    case LodNode(_, levels) =>
      VisitLevelsRecordsLights(num, variant, materials, levels, ctx.(withinLod := true), states);
    case LightNode(spec) =>
      RecordedStateIsDeclared(spec);
  }

  lemma {:induction false} VisitAllRecordsLights(num: Numerics, variant: Variant, materials: map<string, Material>, nodes: seq<Node>, ctx: ParsingContext, states: map<string, bool>)
    requires VisitAll(num, variant, materials, nodes, ctx, states).Ok?
    ensures VisitAll(num, variant, materials, nodes, ctx, states).value.states == Record(variant, states, LightSpecsAll(nodes))
    decreases nodes
  {
    if nodes != [] {
      var first := Visit(num, variant, materials, nodes[0], ctx, states).value;
      VisitRecordsLights(num, variant, materials, nodes[0], ctx, states);
      VisitAllRecordsLights(num, variant, materials, nodes[1..], ctx, first.states);
      RecordAppend(variant, states, LightSpecs(nodes[0]), LightSpecsAll(nodes[1..]));
    }
  }

  lemma {:induction false} VisitLevelsRecordsLights(num: Numerics, variant: Variant, materials: map<string, Material>, levels: seq<LodNodeRef>, ctx: ParsingContext, states: map<string, bool>)
    requires VisitLevels(num, variant, materials, levels, ctx, states).Ok?
    ensures VisitLevels(num, variant, materials, levels, ctx, states).value.states == Record(variant, states, LightSpecsLevels(levels))
    decreases levels
  {
    if levels != [] {
      var first := VisitLevel(num, variant, materials, levels[0], ctx, states).value;
      VisitLevelRecordsLights(num, variant, materials, levels[0], ctx, states);
      VisitLevelsRecordsLights(num, variant, materials, levels[1..], ctx, first.states);
      RecordAppend(variant, states, LightSpecsLevel(levels[0]), LightSpecsLevels(levels[1..]));
    }
  }

  lemma {:induction false} VisitLevelRecordsLights(num: Numerics, variant: Variant, materials: map<string, Material>, level: LodNodeRef, ctx: ParsingContext, states: map<string, bool>)
    requires VisitLevel(num, variant, materials, level, ctx, states).Ok?
    ensures VisitLevel(num, variant, materials, level, ctx, states).value.states == Record(variant, states, LightSpecsLevel(level))
    decreases level
  {
    VisitRecordsLights(num, variant, materials, level.node, ctx, states);
  }

  /**
   * The parse records, under each light's id, the switch state its last declaration
   * leaves as written: the declared `enabled` of a point light, and "on" for a spot or
   * directional light.
   */
  lemma ParseRecordsLights(num: Numerics, data: Data)
    requires Parse(num, data).Ok?
    ensures data.rootId in data.nodes
    ensures Parse(num, data).value.lightStates == Record(AsWritten, map[], LightSpecs(data.nodes[data.rootId]))
  {
    var textures := BuildTextures(data.textures).value;
    var materials := BuildMaterials(data.materials, textures).value;
    VisitRecordsLights(num, AsWritten, materials, data.nodes[data.rootId], RootContext, map[]);
  }

  /**
   * As written, a spot light whose last declaration switches it off is recorded as on
   * after parsing.
   */
  lemma DisabledSpotLightParsedOn(num: Numerics, data: Data, i: nat)
    requires Parse(num, data).Ok? && data.rootId in data.nodes
    requires var specs := LightSpecs(data.nodes[data.rootId]);
             i < |specs| && specs[i].kind == "spotlight" && !specs[i].enabled
             && forall j :: i < j < |specs| ==> specs[j].id != specs[i].id
    ensures var specs := LightSpecs(data.nodes[data.rootId]);
            specs[i].id in Parse(num, data).value.lightStates
            && Parse(num, data).value.lightStates[specs[i].id]
  {
    var specs := LightSpecs(data.nodes[data.rootId]);
    ParseRecordsLights(num, data);
    RecordLast(AsWritten, map[], specs, i);
  }

  // ----- what the context does not influence

  /** Whether a node lies inside an LOD node changes nothing about what is built. */
  lemma {:induction false} WithinLodIgnored(num: Numerics, variant: Variant, materials: map<string, Material>, node: Node, ctx: ParsingContext, states: map<string, bool>, within: bool)
    ensures Visit(num, variant, materials, node, ctx, states) == Visit(num, variant, materials, node, ctx.(withinLod := within), states)
    decreases node
  {
    var lifted := ctx.(withinLod := within);
    match node
    case CompositeNode(_, _, _, _, _, children) =>
      var inner := CompositeContext(node, ctx);
      assert CompositeContext(node, lifted) == inner.(withinLod := within);
      WithinLodIgnoredAll(num, variant, materials, children, inner, states, within);
      assert VisitAll(num, variant, materials, children, CompositeContext(node, lifted), states)
             == VisitAll(num, variant, materials, children, inner, states);
    case PrimitiveNode(_) =>
      assert PrimitiveContext(ctx, materials) == PrimitiveContext(lifted, materials);
    case LodNode(_, levels) =>
      assert ctx.(withinLod := true) == lifted.(withinLod := true);
    case LightNode(_) =>
  }

  lemma {:induction false} WithinLodIgnoredAll(num: Numerics, variant: Variant, materials: map<string, Material>, nodes: seq<Node>, ctx: ParsingContext, states: map<string, bool>, within: bool)
    ensures VisitAll(num, variant, materials, nodes, ctx, states) == VisitAll(num, variant, materials, nodes, ctx.(withinLod := within), states)
    decreases nodes
  {
    if nodes != [] {
      WithinLodIgnored(num, variant, materials, nodes[0], ctx, states, within);
      var first := Visit(num, variant, materials, nodes[0], ctx, states);
      if first.Ok? {
        WithinLodIgnoredAll(num, variant, materials, nodes[1..], ctx, first.value.states, within);
      }
    }
  }

  /** A node that names its own materials builds the same whatever materials are in force above it. */
  lemma OwnMaterialsOverride(num: Numerics, variant: Variant, materials: map<string, Material>, node: Node, ctx: ParsingContext, states: map<string, bool>, inherited: seq<string>)
    requires node.CompositeNode? && node.materialIds != []
    ensures Visit(num, variant, materials, node, ctx, states) == Visit(num, variant, materials, node, ctx.(activeMaterials := inherited), states)
  {
    assert CompositeContext(node, ctx) == CompositeContext(node, ctx.(activeMaterials := inherited));
  }

  /** Every tag other than the three structural ones goes to the light builder, which rejects tags it does not know. */
  lemma UnknownTagRejected(num: Numerics, variant: Variant, materials: map<string, Material>, spec: LightSpec, ctx: ParsingContext, states: map<string, bool>)
    requires KindOf(spec.kind).None?
    requires spec.kind != "node" && spec.kind != "primitive" && spec.kind != "lod"
    ensures Visit(num, variant, materials, LightNode(spec), ctx, states) == Err(UnsupportedRepresentation(spec.kind))
  {
  }
}
