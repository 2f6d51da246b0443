# Scene-graph course project, modelled in Dafny

This project models the logic of a Three.js course repository. It does not model the rendering. The modules follow the programs:

- **`BasketNet`** (`basket_net.dfy`) is the Python script that generates the basket net. For each of `orderU + 1` angles it turns a fixed ring table of (height, radius) pairs into control points. It then prints them as a `<nurbs>` block of `<controlpoint>` lines. `Text` provides the integer-to-text conversion the printer uses, and its inverse.
- **`SceneGraph`** (`scene_graph.dfy`) holds the scene description the second project's parser reads: the node, primitive, transformation, light, texture and material records, and the errors the code throws.
- **`Parser`** (`parser.dfy`) is the second project's parser. It builds the texture table, then the material table. It then walks the scene tree from the root node, passing a context down the tree:
  - the active material ids;
  - the OR of the cast- and receive-shadow flags;
  - the "within a level of detail" flag.

  At a primitive it resolves the active material ids. At a light it records the visibility of the object the light builder returns. That is the light's declared `enabled` for a point light, but a spot or directional light comes back wrapped in a fresh group, which is always visible (see Findings). The walk takes a `Variant`: `AsWritten` records as the code does, and `Corrected` records the light's own visibility. `Parse` uses `AsWritten`.
- **`PrimitiveBuilder`** (`primitive_builder.dfy`) turns each primitive subtype into a geometry and an offset. It reshapes a NURBS patch's flat control-point list into a grid. It chooses the mesh material.
- **`Polygon`** (`polygon.dfy`) is the polygon builder's position, index and colour arrays, built with the same loops as the source. The index pass takes a `Variant` for the seed of the next-spoke index: `AsWritten` is the code's `innerIndex + stacks`, and `Corrected` wraps it like every later step (see Findings). The primitive builder uses `AsWritten`.
- **`NurbsBuilder`** (`nurbs_builder.dfy`) builds the clamped knot vectors and the four-component control points that a NURBS surface is made from.
- **`TextureBuilder`** (`texture_builder.dfy`) validates filter names, collects the mipmap sources and applies the mipmap-generation rule.
- **`MaterialBuilder`** (`material_builder.dfy`) maps a material record to Phong material options. It derives the polygon material and runs the visualisation-mode state machine.
- **`LightBuilder`** (`light_builder.dfy`) dispatches on the light type, builds the helper list and the shadow settings, and handles the light-visibility and helper-visibility events.
- **`BasketReshape`** (`basket_reshape.dfy`) connects the generator to the reshaping. The generator emits the rings innermost, and the reshaping chunks the list row-major. So row *i* of the NURBS grid built from the script's output is exactly the ring points at angle *i*.
- **`ControlGrids`**, **`FlowerPot`** and **`Newspaper`** (`control_grids.dfy`, `flower_pot.dfy`, `newspaper.dfy`) are the older NURBS factories of the first project and the first practical class:
  - the half flower pot's 32 × 5 grid, which sweeps a five-ring profile through half a turn;
  - the newspaper page's 4 × 2 grid, with its conditional row and column reversals;
  - the two-part objects those factories assemble.
- **`Tp2PrimitiveBuilder`** and **`Tp2Parser`** (`tp2_primitive_builder.dfy`, `tp2_parser.dfy`) are the second practical class's first-cut builder and parser.

Floating-point numbers are modelled as exact reals. `Math.cos`, `Math.sin`, `Math.sqrt`, Python's `round(x, 4)` and the constant pi are not computed: they travel as a record of function values (`Floats.Numerics`), so no property depends on what they return. Python's float-to-text conversion is likewise a function parameter.

Where the source relies on JavaScript semantics, the model follows them:

- `!!ref` is false for both `null` and the empty string.
- Cloning a texture the table does not hold calls `undefined.clone()`, which is a `TypeError`.
- A control-point list too short for the declared degrees leaves `undefined` cells, and reading them is a `TypeError`.
- A fresh `THREE.Group` is visible.
- `x ?? 1` and a default parameter both replace a missing value.

The basket-net script unpacks each ring tuple as `(y, radius)`: the table's first column is the height and the second the radius. So the first emitted point has `xx = 0.5` and `yy = 0.4`.

Where the code and its documentation comments disagree, the model follows the code:

- The second project's level-of-detail visitor sets `withinLod`, and nothing ever reads it. The `@throws` note on `#visitLod` (`proj-2/MyParser.js:243`) describes a nesting check the code does not make. `Parser.WithinLodIgnored` states this.

## Model

| member | source | states |
|---|---|---|
| BasketNet.Theta | proj-2/create_basket_net.py:18-21 | The angle of index 0 is 0 and the angle of the last index is 2π. It is defined only when there are at least two segments, because the formula divides by segments − 1. |
| BasketNet.RingPoints | proj-2/create_basket_net.py:22-28 | One angle step yields one point per ring, in ring order. Each point's x and z are the rounded radius·cos θ and radius·sin θ of the same θ, and its y is the ring height. |
| BasketNet.Generate | proj-2/create_basket_net.py:14-28 | The generation fails with a division by zero exactly when orderU = 0. Otherwise it yields (orderU+1)·R points, and the point for angle i and ring j sits at index i·R + j. |
| BasketNet.GeneratedOrder | proj-2/create_basket_net.py:20-28 | Point k belongs to angle k div R and ring k mod R, and its y is that ring's height, copied verbatim and never rounded. |
| BasketNet.Emit | proj-2/create_basket_net.py:30-34 | The output has exactly count + 2 lines: the opening tag, one `<controlpoint>` line per point in list order, and `</nurbs>`. |
| BasketNet.OpenTag | proj-2/create_basket_net.py:30 | Reading the opening tag back recovers degree_u and degree_v. |
| BasketNet.PointLine | proj-2/create_basket_net.py:32 | When no coordinate text holds a double quote, reading a control-point line back recovers the three printed coordinates, in the order xx, yy, zz. |
| BasketNet.ParseEmit | proj-2/create_basket_net.py:30-34 | Reading the whole printed block back recovers the degrees and every point's printed coordinates, in order. |
| BasketNet.BasketNetMarkup | proj-2/create_basket_net.py:4-34 | With orderU 127 and three rings the script succeeds and prints 386 lines. The first line is the opening tag for degrees 127 and 2, and the last is the closing tag. |
| BasketNet.DefaultDegreeTexts | proj-2/create_basket_net.py:6-14 | The printed degree attributes are "127" and "2", the second being the ring count minus one. |
| Text.ParseIntToString | proj-2/create_basket_net.py:30 | The decimal text an integer is printed as reads back to that integer. |
| BasketReshape.BasketRowsAreRings | proj-2/MyPrimitiveBuilder.js:239-255 | A patch declared with degree_u = orderU, degree_v = R − 1 and the generator's points reshapes without a hole. Row i, column j of the grid is the generator's point for angle i and ring j, with w = 1. |
| BasketReshape.BasketSurface | proj-2/create_basket_net.py:14-28 | Feeding the generator's output to the NURBS reshaping fails exactly when orderU = 0. Otherwise it gives orderU+1 rows whose row i holds the ring points at angle i. |
| PrimitiveBuilder.CentredInterval | proj-2/MyPrimitiveBuilder.js:118-122 | Centre ∓ half the span are the smaller and the larger coordinate. |
| PrimitiveBuilder.CylinderDescriptor | proj-2/MyPrimitiveBuilder.js:82-107 | The top radius comes from `top` and the bottom radius from `base`. The cylinder is open-ended exactly when `capsclose` is false, and it is not moved. |
| PrimitiveBuilder.RectangleDescriptor | proj-2/MyPrimitiveBuilder.js:115-145 | The plane, placed at the offset, covers exactly the rectangle between the two corners on each axis. Its texture coordinates are scaled by its width and height. |
| PrimitiveBuilder.RectangleCornersInterchangeable | proj-2/MyPrimitiveBuilder.js:115-122 | Swapping the two corners, or using the other diagonal, gives the same plane and offset. |
| PrimitiveBuilder.TriangleDescriptor | proj-2/MyPrimitiveBuilder.js:153-160 | The nine positions are the corners xyz1, xyz2 and xyz3, in that order. |
| PrimitiveBuilder.SphereDescriptor | proj-2/MyPrimitiveBuilder.js:198-221 | Slices and stacks become the width and height segments. phistart/philength give the longitude range and thetastart/thetalength the latitude range. |
| PrimitiveBuilder.BoxDescriptor | proj-2/MyPrimitiveBuilder.js:277-299 | The box, placed at the offset, covers exactly the box between the two corners on every axis. |
| PrimitiveBuilder.BoxCornersInterchangeable | proj-2/MyPrimitiveBuilder.js:277-286 | Swapping the two corners changes neither the size nor the offset. |
| PrimitiveBuilder.ControlGrid | proj-2/MyPrimitiveBuilder.js:245-255 | The reshaped grid has degree_u + 1 rows of degree_v + 1 cells. |
| PrimitiveBuilder.ReshapeControlPoints | proj-2/MyPrimitiveBuilder.js:239-255 | The nested loop with its running counter k builds exactly the grid whose cell (i, v) is flat point i·(degree_v+1) + v, as [xx, yy, zz]. |
| PrimitiveBuilder.ControlGridHole | proj-2/MyPrimitiveBuilder.js:245-255 | The grid has an `undefined` cell exactly when the list holds fewer than (degree_u+1)·(degree_v+1) points. |
| PrimitiveBuilder.NurbsDescriptor | proj-2/MyPrimitiveBuilder.js:229-269 | Building a NURBS primitive throws a TypeError exactly when the control-point list is too short for its degrees. Otherwise it gives an unmoved NURBS geometry. |
| PrimitiveBuilder.BuildNurbs | proj-2/MyPrimitiveBuilder.js:229-269 | The loop-based builder agrees with the functional one. |
| PrimitiveBuilder.NurbsControlPoints | proj-2/MyPrimitiveBuilder.js:239-262 | The surface has the declared degrees. Its point (i, j) is control point i·(degree_v+1) + j as (xx, yy, zz, 1). |
| PrimitiveBuilder.PolygonDescriptor | proj-2/MyPrimitiveBuilder.js:307-456 | The index buffer is seeded as written. Positions and colours have 1 + slices·stacks entries, and there are 3·slices·(2·stacks − 1) indices. From two slices on every index addresses one of the positions. With one slice, the third index equals the number of positions, one past the last vertex. |
| PrimitiveBuilder.BuildGeometry | proj-2/MyPrimitiveBuilder.js:52-73 | Dispatch throws "Representation of type model3d not supported." for the declared but unbuilt model3d subtype, and a TypeError for a too-short NURBS list. Every other subtype builds its own geometry; only rectangles and boxes are moved. |
| PrimitiveBuilder.BuildPrimitive | proj-2/MyPrimitiveBuilder.js:27-44 | A mesh gets the geometry placed at its offset and the context's shadow flags. A polygon gets the polygon material derived from the first active material, and throws a TypeError when there is none. Every other primitive gets the first active material, or the renderer's default when the list is empty. |
| PrimitiveBuilder.OnlyFirstMaterialUsed | proj-2/MyPrimitiveBuilder.js:30-34 | Only the first active material matters: dropping the rest changes nothing. |
| PrimitiveBuilder.PolygonMeshWellFormed | proj-2/MyPrimitiveBuilder.js:27-44 | A built polygon mesh has one colour per position. From two slices on no index is out of range. With one slice, its first triangle refers to the vertex one past the last. |
| Polygon.VertexIndexFlat | proj-2/MyPrimitiveBuilder.js:333-348 | The vertex of slice s, stack k sits at 1 + s·stacks + k, after the centre. |
| Polygon.WalkSpoke | proj-2/MyPrimitiveBuilder.js:340-347 | A spoke is stacks equal steps out from the centre, the k-th at (k+1)·(dx, dy, 0). |
| Polygon.BuildPositions | proj-2/MyPrimitiveBuilder.js:311-348 | The position loops give the centre followed by every slice's spoke points. |
| Polygon.PushQuads | proj-2/MyPrimitiveBuilder.js:378-383 | The stack loop appends two triangles per outer stack and advances both cursors by stacks − 1. |
| Polygon.NextSpokeStep | proj-2/MyPrimitiveBuilder.js:385-386 | After a slice, `(nextInnerIndex % maxIndex) + 1` is the first vertex of the slice after next, wrapping to slice 0 after the last. |
| Polygon.WrapNextSpoke | proj-2/MyPrimitiveBuilder.js:385-386 | The loop statement performing that wrap produces the next slice's neighbour index. |
| Polygon.Indices | proj-2/MyPrimitiveBuilder.js:364-387 | The index loops build exactly the slice-by-slice buffer. This holds both for the seed as written and for the corrected seed. |
| Polygon.IndexBufferLength | proj-2/MyPrimitiveBuilder.js:369-387 | Each slice emits 1 + 2·(stacks−1) triangles. |
| Polygon.IndexCount | proj-2/MyPrimitiveBuilder.js:369-387 | The index array holds 3·slices·(2·stacks − 1) entries. |
| Polygon.IndexBufferPrefix | proj-2/MyPrimitiveBuilder.js:369-387 | Later slices only append: the buffer after m slices is a prefix of the buffer after n ≥ m slices. |
| Polygon.FanTriangle | proj-2/MyPrimitiveBuilder.js:371 | Slice s's fan triangle is (0, 1+s·stacks, 1+((s+1) mod slices)·stacks). |
| Polygon.FanAt | proj-2/MyPrimitiveBuilder.js:369-371 | Right after the first s slices the buffer continues with slice s's fan triangle (centre, its innermost vertex, the next spoke's innermost vertex), and the buffer of any n > s slices keeps that prefix. |
| Polygon.NextSpokeWraps | proj-2/MyPrimitiveBuilder.js:365-386 | With the corrected seed, or with at least two slices, the spoke after s is spoke (s + 1) mod slices. |
| Polygon.IndicesInRange | proj-2/MyPrimitiveBuilder.js:364-387 | With the corrected seed, every index is below 1 + slices·stacks for all positive slices and stacks. |
| Polygon.SeedsAgree | proj-2/MyPrimitiveBuilder.js:365-366 | With at least two slices the corrected seed equals the written one, so the correction changes nothing there. |
| Polygon.IndicesInRangeAsWritten | proj-2/MyPrimitiveBuilder.js:364-387 | As written, with at least two slices, every index is in range. |
| Polygon.SingleSliceOutOfRange | proj-2/MyPrimitiveBuilder.js:365-371 | As written, with one slice, the first triangle is (0, 1, 1+stacks), and 1 + stacks is one past the last vertex. |
| Polygon.BuildStackColors | proj-2/MyPrimitiveBuilder.js:408-425 | Stack k's colour is color_c + (k+1)·(color_p − color_c)/stacks, componentwise. |
| Polygon.BuildColors | proj-2/MyPrimitiveBuilder.js:427-438 | The colour array is the centre colour followed by slices copies of the stack colours. |
| Polygon.OuterStackColor | proj-2/MyPrimitiveBuilder.js:408-425 | The outermost stack's colour is exactly color_p. |
| Polygon.BufferLayout | proj-2/MyPrimitiveBuilder.js:311-438 | Position and colour i agree on the vertex: the centre and color_c come first, and vertex 1 + s·stacks + k has spoke point (s, k) and stack colour k. |
| Polygon.PolygonBuffers | proj-2/MyPrimitiveBuilder.js:307-456 | For either seed, the buffers hold 1 + slices·stacks positions and colours and 3·slices·(2·stacks − 1) indices, with the centre and color_c first. |
| Polygon.BuildPolygon | proj-2/MyPrimitiveBuilder.js:307-456 | For either seed, the polygon's buffers have 1 + slices·stacks positions and colours and 3·slices·(2·stacks−1) indices. With the corrected seed, or as written from two slices on, every index is in range. As written with one slice, the third index is one past the last vertex. |
| NurbsBuilder.Knots | proj-2/MyNurbsBuilder.js:24-30 | The knot loop pushes degree+1 zeros followed by degree+1 ones. |
| NurbsBuilder.KnotsClamped | proj-2/MyNurbsBuilder.js:24-38 | Such a knot vector is non-decreasing and contains only 0 and 1. |
| NurbsBuilder.ClampedKnots | proj-2/MyNurbsBuilder.js:32-38 | The knot vector has length 2·(degree+1) and is clamped. |
| NurbsBuilder.Stack | proj-2/MyNurbsBuilder.js:50-52 | A point takes its components from item[0..3]. A three-component item gets w = 1, the renderer's default for the missing argument. |
| NurbsBuilder.StackRow | proj-2/MyNurbsBuilder.js:45-53 | A row is stacked point by point, keeping its length. It throws a TypeError exactly when some cell is `undefined`. |
| NurbsBuilder.StackPoints | proj-2/MyNurbsBuilder.js:40-56 | The stacked points have as many rows as the input, each as long as its input row, with each point taken from the same position. A hole anywhere is a TypeError. |
| NurbsBuilder.StackedRow | proj-2/MyNurbsBuilder.js:45-53 | This is the functional form of the row stacking, with the same shape, content and error. |
| NurbsBuilder.StackedGrid | proj-2/MyNurbsBuilder.js:40-56 | This is the functional form of the grid stacking, with the same shape, content and error. |
| NurbsBuilder.Build | proj-2/MyNurbsBuilder.js:19-56 | The surface keeps both degrees and sample counts. Its knot vectors are clamped and of length 2·(degree+1). Its points are the stacked grid. It fails exactly when the grid has a hole. |
| TextureBuilder.MinFilterOf | proj-2/MyTextureBuilder.js:43-50 | A recognised minification filter has exactly the given name. |
| TextureBuilder.MagFilterOf | proj-2/MyTextureBuilder.js:52-55 | A recognised magnification filter has exactly the given name and is Nearest or Linear. |
| TextureBuilder.FilterNamesRoundTrip | proj-2/MyTextureBuilder.js:43-55 | Every filter's name is recognised as that filter. It is a valid magnification name only for the two magnification filters. |
| TextureBuilder.FilterNamesExact | proj-2/MyTextureBuilder.js:43-57 | A name is accepted exactly when it is one of the six (respectively two) listed filter names. |
| TextureBuilder.PresentCount | proj-2/MyTextureBuilder.js:59-68 | Flattening keeps one source per non-null slot, and nothing that is not in a slot. |
| TextureBuilder.PresentAppend | proj-2/MyTextureBuilder.js:59-68 | Flattening distributes over concatenation, so sources keep slot order. |
| TextureBuilder.PresentEmpty | proj-2/MyTextureBuilder.js:59-75 | The source list is empty exactly when every mipmap slot is null. |
| TextureBuilder.BuildTexture | proj-2/MyTextureBuilder.js:20-90 | The texture throws "Invalid filter" exactly when either filter name is not listed. Otherwise: name = id; anisotropy is copied; the filters are the named ones; a video source iff isVideo; both wraps Repeat; generateMipmaps iff mipmaps or no sources; one mipmap image per source otherwise. |
| TextureBuilder.MipmapsInSlotOrder | proj-2/MyTextureBuilder.js:59-84 | When mipmaps are not generated, the images are the non-null sources in slot order mipmap0…mipmap7, and a source is among them exactly when some slot holds it. |
| TextureBuilder.PresentContains | proj-2/MyTextureBuilder.js:59-68 | The `?? []` flattening keeps a source exactly when some slot holds it. |
| Floats.Reciprocal | proj-2/MyMaterialBuilder.js:53 | JavaScript's `1 / x` is finite exactly when x ≠ 0, and is then x's inverse. |
| MaterialBuilder.MapSlot | proj-2/MyMaterialBuilder.js:50-63 | A map is set exactly when its reference is non-empty, as that texture with the given repeat. It throws a TypeError when the reference is not in the table. |
| MaterialBuilder.BuildMaterial | proj-2/MyMaterialBuilder.js:19-75 | The options are: name = id; opacity = color.a; always transparent; flatShading iff shading is "flat"; DoubleSide iff twosided. Colour and specular maps get repeat (1/texlength_s, 1/texlength_t). A bump map gets bumpScale and no repeat. A dangling used reference throws. |
| MaterialBuilder.EmptyReferenceIgnored | proj-2/MyMaterialBuilder.js:50-70 | An empty-string texture reference behaves exactly like a missing one. |
| MaterialBuilder.OnlyUsedTexturesMatter | proj-2/MyMaterialBuilder.js:50-70 | The material depends on the texture table only through the entries it references. |
| MaterialBuilder.UntexturedAlwaysBuilds | proj-2/MyMaterialBuilder.js:19-75 | A material without texture references always builds, whatever the table. |
| MaterialBuilder.PolygonMaterial | proj-2/MyMaterialBuilder.js:83-94 | The polygon material copies flatShading, wireframe and side, and always has vertexColors and transparent. |
| MaterialBuilder.PolygonMaterialDependsOnLook | proj-2/MyMaterialBuilder.js:83-90 | Two active materials with the same shading, wireframe and side give the same polygon material. |
| MaterialBuilder.ModeOf | proj-2/MyMaterialBuilder.js:111-122 | A recognised visualisation mode has exactly the given name. |
| MaterialBuilder.ModeNamesRoundTrip | proj-2/MyMaterialBuilder.js:111-122 | Every mode's name is recognised as that mode. |
| MaterialBuilder.Register | proj-2/MyMaterialBuilder.js:104-105 | Installing the listener captures the material's wireframe value at that moment. |
| MaterialBuilder.OnMode | proj-2/MyMaterialBuilder.js:108-126 | An unknown mode throws "Invalid visualization mode …". A known mode changes only the material's wireframe flag and keeps the captured value. |
| MaterialBuilder.ModeMeaning | proj-2/MyMaterialBuilder.js:111-122 | "as-is" restores the captured wireframe, "wireframe" sets it, and "fill" clears it. |
| MaterialBuilder.OnModeIdempotent | proj-2/MyMaterialBuilder.js:111-126 | Applying the same mode twice is the same as applying it once. |
| MaterialBuilder.LastModeWins | proj-2/MyMaterialBuilder.js:111-126 | After any accepted mode, the next mode alone decides the state. |
| MaterialBuilder.AsIsRestores | proj-2/MyMaterialBuilder.js:105-114 | "as-is" after any accepted mode gives back the material as it was built. |
| MaterialBuilder.Dispatch | proj-2/MyMaterialBuilder.js:106-128 | One event applies the mode to every registered material. It throws exactly when the mode is unknown and some listener exists. |
| MaterialBuilder.UnknownModeWithoutListeners | proj-2/MyMaterialBuilder.js:124-125 | With no listener installed, even an unknown mode does not throw. |
| MaterialBuilder.DispatchRoundTrip | proj-2/MyMaterialBuilder.js:104-128 | Any accepted mode followed by "as-is" restores every registered material. |
| MaterialBuilder.RegisterAll | proj-2/MyMaterialBuilder.js:72 | Every built material gets its own listener, which captures its own wireframe value. |
| LightBuilder.KindOf | proj-2/MyLightBuilder.js:79-92 | A recognised light type has exactly the given tag. |
| LightBuilder.KindTagsRoundTrip | proj-2/MyLightBuilder.js:79-85 | Every light kind's tag is recognised as that kind. |
| LightBuilder.BuildDescriptor | proj-2/MyLightBuilder.js:78-243 | Only spotlight, pointlight and directionallight are accepted, and any other type throws. Each light has its own kind's helper, plus a camera helper iff castshadow. A shadow exists iff castshadow, with far = shadowfar and map width = height = shadowmapsize. The frustum is set only for directional lights, and a target exists except for point lights. |
| LightBuilder.TargetsOfLights | proj-2/MyLightBuilder.js:101-124 | A spot light aims at its declared target, and a directional light at the origin. |
| LightBuilder.BuildLight | proj-2/MyLightBuilder.js:24-69 | The light gets name = id, visible = enabled and the declared position. Lights with a target are returned inside a group together with that target. |
| LightBuilder.RecordedStateAsWritten | proj-2/MyLightBuilder.js:64-68 | The state the parser reads from the returned object is on whenever the light is visible. For an invisible light it is on exactly when the light came back wrapped in a group. |
| LightBuilder.DisabledSpotLightRecordedOn | proj-2/MyLightBuilder.js:64-66 | As written, a disabled spotlight is built invisible, yet the value returned to the parser reports it visible. |
| LightBuilder.RecordedStateIsDeclared | proj-2/MyParser.js:269-273 | The corrected recorded state is the declared `enabled`. As written, the state reads "on" for every spot or directional light. |
| LightBuilder.SetLightVisible | proj-2/MyLightBuilder.js:250-258 | A "setvisible" event changes only the visibility of lights whose name equals the event's name. |
| LightBuilder.SetLightVisibleUndo | proj-2/MyLightBuilder.js:250-258 | Toggling a name away and back restores the lights. |
| LightBuilder.SetLightVisibleCommutes | proj-2/MyLightBuilder.js:250-258 | Events for two different names commute. |
| LightBuilder.SetHelpersVisible | proj-2/MyLightBuilder.js:55-62 | A helpers-visibility event keeps every helper and its kind. |
| LightBuilder.SetHelpersVisibleLastWins | proj-2/MyLightBuilder.js:55-62 | After the event every helper has the event's value, and only the last event counts. |
| Parser.BuildTableOk | proj-2/MyParser.js:112-133 | A table builds exactly when every declared entry builds. |
| Parser.BuildTableError | proj-2/MyParser.js:112-133 | A failing table reports the error of the first entry that fails. |
| Parser.BuildTableKeys | proj-2/MyParser.js:112-133 | The table's keys are exactly the declared ids. |
| Parser.BuildTableLastWins | proj-2/MyParser.js:112-133 | When an id is declared twice, the last declaration is the one kept. |
| Parser.BuildTextures | proj-2/MyParser.js:112-120 | The texture table builds exactly when every texture does, and otherwise fails with "Invalid filter". |
| Parser.BuildMaterials | proj-2/MyParser.js:123-133 | The material table, built against the full texture table, builds exactly when every material does. Otherwise it fails with a TypeError. |
| Parser.ResolveMaterials | proj-2/MyParser.js:218-228 | The active ids resolve exactly when all are known, keeping order and length. Otherwise the first unknown id throws "Could not find material with id …". |
| Parser.CompositeContext | proj-2/MyParser.js:184-190 | A composite node never changes the level-of-detail flag it passes down. |
| Parser.Visit | proj-2/MyParser.js:154-273 | A composite node gives a group with one child per child node and the node's transformations. A primitive gives a mesh and records nothing. A level-of-detail node gives one level per declared level. A light node builds exactly when its type is supported, and gives the built light with its id recorded. The rest of its contract is stated by `Parser.VisitShadows`, `Parser.VisitRecordsLights`, `Parser.WithinLodIgnored` and `Parser.OwnMaterialsOverride`. |
| Parser.VisitAll | proj-2/MyParser.js:192-196 | A composite node's group has one child per child node. |
| Parser.VisitLevels | proj-2/MyParser.js:250-258 | A level-of-detail object has one level per declared child, each at its declared distance. |
| Parser.VisitLevel | proj-2/MyParser.js:251-258 | Each level keeps its declared minimum distance. |
| Parser.Parse | proj-2/MyParser.js:58-82 | Textures are built before materials, and a failure of either is reported first. A root id not in the node table fails with a TypeError. A successful parse gives a group with one child. |
| Parser.ParseVisitsRoot | proj-2/MyParser.js:58-82 | Once both tables build and the root exists, Parse succeeds exactly when the visit of the root in the root context succeeds, and a failing visit's error is Parse's error. When it succeeds, the scene is a group whose one child is the visited root, and the light states are the ones that visit recorded from an empty map. |
| Parser.ContextBelowMaterials | proj-2/MyParser.js:184-187 | Below a chain of composite nodes, the active materials are those of the deepest node on the chain that declares any, or none. |
| Parser.ContextBelowShadows | proj-2/MyParser.js:65-78 | From the root context, a shadow flag below a chain is set exactly when some node on the chain sets it, and withinLod stays false. |
| Parser.DeclaredShadows | proj-2/MyParser.js:188-189 | Once a shadow flag is true, it stays true for every mesh of the subtree. |
| Parser.VisitShadows | proj-2/MyParser.js:172-209 | Each mesh the walk builds casts (receives) shadows exactly when the context or some composite ancestor says so. |
| Parser.DeclaredShadowsAll | proj-2/MyParser.js:192-196 | Over a list of children, a true shadow flag stays true for every mesh. |
| Parser.DeclaredShadowsLevel | proj-2/MyParser.js:251-258 | Within a level of detail, a true shadow flag stays true for every mesh. |
| Parser.DeclaredShadowsLevels | proj-2/MyParser.js:250-258 | Over all levels of a level-of-detail node, a true shadow flag stays true for every mesh. |
| Parser.VisitLevelShadows | proj-2/MyParser.js:251-258 | This is the shadow property for a single level. |
| Parser.VisitAllShadows | proj-2/MyParser.js:192-196 | This is the same property over a list of children. |
| Parser.VisitLevelsShadows | proj-2/MyParser.js:250-258 | This is the same property over the levels of a level-of-detail node. |
| Parser.RecordContents | proj-2/MyParser.js:269-273 | The recorded ids are the earlier ones plus every visited light's id, and unrelated ids are untouched. As written, each light's last record holds its declared `enabled` if it is a point light and "on" otherwise. Corrected, it holds the declared `enabled`. |
| Parser.RecordKeys | proj-2/MyParser.js:269-273 | The recorded ids are the earlier ones plus the visited lights' ids. |
| Parser.RecordLast | proj-2/MyParser.js:269-273 | A light's last record is "on" for a spot or directional light and the declared `enabled` for a point light, as written. Corrected, it is the declared `enabled`. |
| Parser.RecordUntouched | proj-2/MyParser.js:269-273 | An id no visited light carries keeps its earlier state. |
| Parser.RecordAppend | proj-2/MyParser.js:269-273 | Recording two lists of lights in sequence equals recording their concatenation. |
| Parser.VisitAllRecordsLights | proj-2/MyParser.js:192-196 | Visiting a list of children records their lights in order. |
| Parser.VisitLevelRecordsLights | proj-2/MyParser.js:251-258 | Visiting one level records the lights of that level's subtree. |
| Parser.VisitLevelsRecordsLights | proj-2/MyParser.js:250-258 | Visiting all levels records their lights in declaration order. |
| Parser.VisitRecordsLights | proj-2/MyParser.js:269-273 | For either variant, a walk records every light of the subtree under its id, in visiting order, with the state that variant records. Corrected, that is the declared `enabled`. |
| Parser.ParseRecordsLights | proj-2/MyParser.js:58-82 | After parsing, the initial light states are exactly the as-written records of the root's lights, starting from an empty map: a point light's declared `enabled`, and "on" for a spot or directional light. |
| Parser.DisabledSpotLightParsedOn | proj-2/MyParser.js:269-273 | As written, a spot light whose last declaration is disabled is recorded as on after parsing. |
| Parser.WithinLodIgnored | proj-2/MyParser.js:245-258 | The level-of-detail flag changes nothing in the result: no nesting check is made. |
| Parser.WithinLodIgnoredAll | proj-2/MyParser.js:192-196 | Across a list of children, too, the level-of-detail flag changes nothing. |
| Parser.OwnMaterialsOverride | proj-2/MyParser.js:184-187 | A node that declares materials gives the same result whatever materials it inherits. |
| Parser.UnknownTagRejected | proj-2/MyParser.js:154-162 | Any node type other than node, primitive or lod is handed to the light builder, so an unknown type throws "Representation of type … not supported.". |
| FlowerPot.Profile | proj-1/objects/flower/MyFlowerPotFactory.js:31-37 | The profile has five rings whose heights ascend for a positive vertical scale, and whose radii are positive for a positive radial scale. |
| FlowerPot.HalfGrid | proj-1/objects/flower/MyFlowerPotFactory.js:41-52 | The grid has orderU + 1 = 32 rows, each with one point per ring, and point j of every row has ring j's height. |
| FlowerPot.HeightsPassThrough | proj-1/objects/flower/MyFlowerPotFactory.js:45-51 | Point j of row i is [cos θᵢ·rⱼ, yⱼ, sin θᵢ·rⱼ], with one angle shared by the whole row. |
| FlowerPot.HalfTurn | proj-1/objects/flower/MyFlowerPotFactory.js:43-45 | θ is 0 at row 0 and π at the last row, increasing in between: a half circle. |
| FlowerPot.BuildHalf | proj-1/objects/flower/MyFlowerPotFactory.js:26-71 | The half pot asks for a 31 × 4 degree surface sampled 24 × 24, over a grid matching those degrees. It casts shadows and reports size 1 × 1 × 1. |
| FlowerPot.BuildPot | proj-1/objects/flower/MyFlowerPotFactory.js:81-105 | Both scales default to 1. The second half is a copy of the first turned by π. Both halves cast and receive shadows, and the pot reports the half's size. |
| FlowerPot.BuildPotClass | tp1/objects/flower/MyFlowerPotFactory.js:80-95 | Two halves are built independently, with equal surfaces, and the second is turned by π. The halves cast but do not receive shadows, and the size is copied from the first half. |
| FlowerPot.VersionsDifferOnlyInReceivedShadow | tp1/objects/flower/MyFlowerPotFactory.js:26-95 | The two versions build the same surfaces, rotations and sizes. They differ only in whether the halves receive shadows. |
| ControlGrids.Reverse | proj-1/nurbs/MyNewspaperFactory.js:55-57 | Reversing moves element i to position length − 1 − i and keeps the length. |
| ControlGrids.ReverseInvolution | proj-1/nurbs/MyNewspaperFactory.js:55-63 | Reversing twice restores the list. |
| Newspaper.FlatGridAt | proj-1/nurbs/MyNewspaperFactory.js:32-53 | Before any reversal, row i is at x fraction −0.5, −0.1, 0.1, 0.5 of the width, and column j at y = ∓0.5 of the height. Only row 1 is lifted, by 0.2·scaleZ. |
| Newspaper.PageGrid | proj-1/nurbs/MyNewspaperFactory.js:36-63 | The grid is 4 rows × 2 points after the reversals. |
| Newspaper.PageGridReversals | proj-1/nurbs/MyNewspaperFactory.js:55-63 | Point (i, j) is the unreversed point with the row mirrored iff scaleX < 0 and the column mirrored iff scaleY < 0. |
| Newspaper.PageGridX | proj-1/nurbs/MyNewspaperFactory.js:36-57 | After the row reversal, row i sits at its x fraction of \|scaleX\| whatever the sign of scaleX. |
| Newspaper.PageGridXs | proj-1/nurbs/MyNewspaperFactory.js:36-63 | After the reversals, row i has the x of row i, or of its mirror row 3 − i when scaleX < 0. |
| Newspaper.PageGridYs | tp1/nurbs/MyNewspaperFactory.js:40-67 | After the reversals, column j has the height offset of column j, or of its mirror when scaleY < 0. |
| Newspaper.PageGridZ | tp1/nurbs/MyNewspaperFactory.js:40-67 | After the reversals, the lifted row is row 1, or row 2 when scaleX < 0; every other row lies flat. |
| Newspaper.PageGridY | tp1/nurbs/MyNewspaperFactory.js:40-67 | When the height and scaleY have the same sign, column j sits at its y fraction of the absolute height. |
| Newspaper.PageGridAscending | tp1/nurbs/MyNewspaperFactory.js:40-67 | Whatever the signs of the scales, x ascends down the rows and y ascends along each row. |
| Newspaper.RowsAscend | proj-1/nurbs/MyNewspaperFactory.js:36-63 | With the width equal to scaleX, x ascends down the rows for either sign of scaleX. |
| Newspaper.ColumnsAscend | proj-1/nurbs/MyNewspaperFactory.js:36-63 | With the height as negative as scaleY, y ascends along each row for either sign of scaleY. |
| Newspaper.BuildPage | tp1/nurbs/MyNewspaperFactory.js:28-89 | A page asks for a surface of the given degree by 1, sampled 24 × 24, over the 4 × 2 grid. It casts shadows and reports width scaleX, height scaleY·√2 and depth 0.2·scaleZ. |
| Newspaper.NewspaperPageMatchesDegrees | proj-1/nurbs/MyNewspaperFactory.js:29-53 | The newspaper page's grid matches its degrees: 4 = 3 + 1 rows of 2 = 1 + 1 points. |
| Newspaper.BuildNewspaper | proj-1/nurbs/MyNewspaperFactory.js:92-124 | Scales default to 1. The left page is built with −scaleX and the right with scaleX, each moved by half its own width. The reported size is the sum of the pages' sizes. The practical-class `buildNewspaper` (tp1/nurbs/MyNewspaperFactory.js, lines 98-114) is the same construction. |
| Newspaper.NewspaperWidthCancels | proj-1/nurbs/MyNewspaperFactory.js:119-123 | Since the left page's width is −scaleX, the reported width is always 0, and the depth is 0.4·scaleZ. |
| Newspaper.PagesMirrorTheLift | proj-1/nurbs/MyNewspaperFactory.js:99-117 | For a non-zero scaleX, both pages have the same x and y at every grid position. The left page's lifted row mirrors the right page's: row i of one has the lift of row 3 − i of the other. |
| Newspaper.MirroredGrids | proj-1/nurbs/MyNewspaperFactory.js:55-63 | Grids built with opposite non-zero x scales agree in x and y at every position. Their lifted rows mirror each other. |
| Newspaper.BuildNurbsPot | tp1/nurbs/MyFlowerPotFactory.js:14-80 | The pot is a single page-style surface of degree 2 by 1, with scales defaulting to 1. It reports width scaleX, height scaleY·√2 and depth 0.2·scaleZ. |
| Newspaper.NurbsPotHasExtraRow | tp1/nurbs/MyFlowerPotFactory.js:19-43 | The pot's grid has orderU + 2 rows, one more than degree 2 calls for, so it does not match its degrees. |
| Tp2PrimitiveBuilder.DefaultCylinder | tp2/MyPrimitiveBuilder.js:44-45 | A NURBS representation read as a cylinder finds no fields; `!capsclose` on a missing field makes it open-ended. |
| Tp2PrimitiveBuilder.BuildGeometry | tp2/MyPrimitiveBuilder.js:34-51 | Unknown types (model3d, polygon) throw "Representation of type … not supported.". "nurbs" is built by the cylinder builder. Rectangle and box sizes are the absolute corner differences. A triangle's vertices are xyz1, xyz2 and xyz3, in order. |
| Tp2PrimitiveBuilder.AgreesWithLaterBuilder | tp2/MyPrimitiveBuilder.js:54-164 | Cylinders, triangles, spheres and boxes get the same geometry as in the second project's builder. Rectangles get the same plane without the texture scaling. |
| Tp2PrimitiveBuilder.BuildRepresentation | tp2/MyPrimitiveBuilder.js:15-32 | The geometry's error comes first, and then a missing context throws. A geometry without groups gets the first active material, and one with groups gets the whole list. The mesh receives shadows. |
| Tp2PrimitiveBuilder.BuildsWhenSupported | tp2/MyPrimitiveBuilder.js:15-51 | Given a context, a representation builds exactly when its type is supported. |
| Tp2Parser.Resolved | tp2/MyParser.js:14-21 | The children the walk keeps are all inline primitives and the references the table resolves. |
| Tp2Parser.BuildAllMeshes | tp2/MyParser.js:44-48 | A primitive's group holds one mesh per representation, in order. The first failing representation's error ends it. |
| Tp2Parser.PrimitivesNeverBuild | tp2/MyParser.js:40-51 | Since no context is passed to `buildRepresentation`, a primitive builds only when it has no representations. Otherwise the first one throws. |
| Tp2Parser.VisitEntry | tp2/MyParser.js:23-38 | An entry whose type is not "node" throws "Object is not a node". A visited node is a group. |
| Tp2Parser.BuildAll | tp2/MyParser.js:45-48 | When it succeeds, the loop gives one mesh per representation; with no representations it gives none. |
| Tp2Parser.VisitPrimitive | tp2/MyParser.js:40-51 | A built primitive is a group holding one mesh per representation. |
| Tp2Parser.VisitChildren | tp2/MyParser.js:29-35 | The group has at most one child per declared child, and each built child is a group. A node whose every child is a dangling reference gives an empty group. |
| Tp2Parser.VisitChild | tp2/MyParser.js:14-21 | A reference to a missing id yields `null`, and nothing else does. Whatever else is built is a group. |
| Tp2Parser.DanglingReferencesSkipped | tp2/MyParser.js:29-35 | Dropping the dangling references first changes nothing: the walk skips them silently. |
| Tp2Parser.OneChildPerResolvedChild | tp2/MyParser.js:29-35 | A node's group holds exactly one child per resolvable child, each that child's visit, in order. |
| Tp2Parser.VisitNodes | tp2/MyParser.js:10-12 | The walk starts at the "scene" entry. Without one, reading its type throws a TypeError. |
| Tp2Parser.SelfReferenceExhaustsStack | tp2/MyParser.js:23-35 | A scene that lists itself as a child recurses until the call stack is exhausted, whatever its depth. |

## Left out

- Everything the renderer library does is left out. This covers constructing meshes and groups, evaluating NURBS surfaces (the proj-1 and tp1 factories' surface builder is kept as the record of its arguments), computing normals and the triangle's UVs, and fog.
- Three of the second project's own builders are not part of this model: the camera builder (`proj-2/MyCameraBuilder.js`), the skybox builder (`proj-2/MySkyBoxBuilder.js`) and the transformation-matrix builder (`proj-2/MyTransformationsBuilder.js`). Transformations are kept as the node's list.
- Parser.Parse: the source adds the skybox meshes to the scene before the root (`proj-2/MyParser.js:63`, `:70`). The model's scene leaves them out, so its single child is the root. When skyboxes are declared, the program's scene has more children than the model's.
- Parser.Parse: the parser builds the cameras first (`proj-2/MyParser.js:59`). The camera builder throws `Camera of type … not supported.` for an unknown camera type before any texture is built (`proj-2/MyCameraBuilder.js:39`). The model has no cameras, so that error is not among Parse's outcomes.
- The numerics are left out: 32-bit float storage, `cos`, `sin`, `sqrt`, `round(·, 4)`, float-to-text, and the spotlight's field-of-view conversion. They are uninterpreted values, so `x² + z² = r²` and the seam at 2π are not stated.
- Asynchronous texture and video loading, the DOM image elements, and the level-of-detail ordering that `THREE.LOD.addLevel` applies are left out. Levels are kept in declaration order.
- The listener registry is not threaded through the parser. The visualisation-mode and light-toggle handlers are modelled as functions on the registered materials and lights.
- The `added`-event handlers that move light helpers to the light's parent are left out, because they mutate the scene graph through the library's events.
- Plain-object lookups are modelled as exact key matches, and inherited `Object.prototype` members such as "constructor" or "toString" are not modelled. This covers:
  - the filter-name tables `{…}[name]` of the texture builder;
  - the node lookups `this.nodes["scene"]` and `this.nodes[child.id]` of the second practical class's parser (`tp2/MyParser.js:11`, `tp2/MyParser.js:17`);
  - the root lookup `this.data.nodes[rootNodeId]` of the second project's parser (`proj-2/MyParser.js:66`).
  In the source, a child id "toString" finds a function, and the tp2 parser throws "Object is not a node" for it. The model treats it as a missing id: `Tp2Parser.VisitChild` and `Tp2Parser.DanglingReferencesSkipped` skip it, and `Parser.Parse` fails with a TypeError.
- `Object.entries` orders integer-like keys first. Tables are modelled in declaration order.
- The renderer's colour-space conversion of material colours is left out.
- The model3d loader is left out: it does not exist in the code, which throws for that subtype.
- Polygon slice and stack counts are positive (`Positive`), so zero slices or stacks are excluded. The source does not throw for them: in JavaScript, `2·π / 0` is Infinity and `x % 0` is NaN, so it builds buffers that hold NaN entries or no triangles.
- NURBS degrees are natural numbers. A negative degree gives empty loops in the source and is not modelled.
- Tp2Parser.VisitEntry: the walk carries a `fuel` count standing for the call-stack depth, and running out of it is the `RangeError` of unbounded recursion. The actual depth the engine allows is not modelled.
- The tp2 parser's `"Object is not a primitive"` check is not modelled as reachable: it only sees children whose type is "primitive". Its unused context argument and the empty `searchNodeByID` are left out too.
- The tp2 builder's world matrix is not modelled, because it is composed by the renderer. The defaults of the library's cylinder (radii 1, height 1, 32 by 1 segments, a full turn) are taken from the library's documentation.
- A JavaScript default parameter and `?? 1` are both modelled as `Option.GetOr`. The difference for an explicit `null` is not modelled.
- BasketReshape.BasketSurface requires at least one ring, because the degree it passes is the ring count minus one. The script's own table has three rings.

## Findings

| source | as written | input that shows it | evidently intended | confidence | as-written member | corrected member |
|---|---|---|---|---|---|---|
| proj-2/MyPrimitiveBuilder.js:365-366 | The next-spoke index is seeded with `innerIndex + stacks`, which ignores the wrap-around that later slices get from `% maxIndex`. | slices = 1, stacks = 2: the first triangle is (0, 1, 3) but only vertices 0–2 exist | The first neighbour should wrap too: `1 + (1 % slices)·stacks`, the first vertex of slice (0+1) mod slices | high (not executed) | Polygon.SingleSliceOutOfRange | Polygon.IndicesInRange |
| proj-2/MyParser.js:271 | `#visitLight` records `light.visible` of the object `buildLight` returns. For spot and directional lights that object is a new `THREE.Group` wrapping the light (proj-2/MyLightBuilder.js:64-66), whose `visible` is always true. | a spotlight with enabled = false is recorded as visible, so the light toggles (proj-2/MyContents.js:144-146) start as on | Record the light's own `visible`, which is the declared `enabled` | high (not executed) | Parser.DisabledSpotLightParsedOn | Parser.VisitRecordsLights |
