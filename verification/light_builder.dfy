/**
 * The proj-2 light builder: a spot, point or directional light from its declaration,
 * the helpers drawn with it, the shadow settings applied when it casts shadows, the
 * group that carries a light together with its target, and the two listeners that
 * switch lights and helpers on and off by event.
 */
module LightBuilder {
  import opened Wrappers
  import opened SceneGraph

  datatype Kind = SpotLight | PointLight | DirectionalLight

  function KindTag(k: Kind): string
  {
    match k
    case SpotLight => "spotlight"
    case PointLight => "pointlight"
    case DirectionalLight => "directionallight"
  }

  function KindOf(tag: string): (r: Option<Kind>)
    ensures r.Some? ==> KindTag(r.value) == tag
  {
    if tag == "spotlight" then Some(SpotLight)
    else if tag == "pointlight" then Some(PointLight)
    else if tag == "directionallight" then Some(DirectionalLight)
    else None
  }

  /** The three tags are the only ones the builder accepts. */
  lemma KindTagsRoundTrip(k: Kind)
    ensures KindOf(KindTag(k)) == Some(k)
  {
  }

  /** The extent of a directional light's orthographic shadow camera. */
  datatype Frustum = Frustum(left: real, right: real, bottom: real, top: real)

  /** The shadow settings the builder writes; `frustum` only for directional lights. */
  datatype Shadow = Shadow(far: real, mapWidth: real, mapHeight: real, frustum: Option<Frustum>)

  /**
   * A light. Parameters a kind of light does not have are `None`; `shadow` is `None`
   * when the library's shadow defaults are left as they are.
   */
  datatype Light = Light(
    kind: Kind, name: string, visible: bool, color: Color, intensity: real,
    distance: Option<real>, decay: Option<real>, angle: Option<real>, penumbra: Option<real>,
    position: Vec3, target: Option<Vec3>, castShadow: bool, shadow: Option<Shadow>)

  datatype HelperKind = LightHelper(of: Kind) | ShadowCameraHelper

  datatype Helper = Helper(kind: HelperKind, visible: bool)

  /** A light and the helpers drawn with it. */
  datatype LightDescriptor = LightDescriptor(light: Light, helpers: seq<Helper>)

  const Origin := Vec3(0.0, 0.0, 0.0)

  /** The kind-specific part: the light with its own parameters, its helper, and the shadow camera and its helper when it casts shadows. */
  function BuildDescriptor(spec: LightSpec): (r: Result<LightDescriptor, Error>)
    ensures r.Err? <==> KindOf(spec.kind).None?
    ensures r.Err? ==> r.error == UnsupportedRepresentation(spec.kind)
    ensures r.Ok? ==> KindOf(spec.kind) == Some(r.value.light.kind)
    ensures r.Ok? ==> r.value.light.castShadow == spec.castshadow && r.value.light.visible
    ensures r.Ok? ==> |r.value.helpers| == (if spec.castshadow then 2 else 1)
    ensures r.Ok? ==> r.value.helpers[0] == Helper(LightHelper(r.value.light.kind), true)
    ensures r.Ok? && spec.castshadow ==> r.value.helpers[1] == Helper(ShadowCameraHelper, true)
    ensures r.Ok? ==> (r.value.light.shadow.Some? <==> spec.castshadow)
    ensures r.Ok? && spec.castshadow ==>
              r.value.light.shadow.value.far == spec.shadowfar
              && r.value.light.shadow.value.mapWidth == spec.shadowmapsize
              && r.value.light.shadow.value.mapHeight == spec.shadowmapsize
              && (r.value.light.shadow.value.frustum.Some? <==> r.value.light.kind == DirectionalLight)
    ensures r.Ok? ==> (r.value.light.target.Some? <==> r.value.light.kind != PointLight)
  {
    match KindOf(spec.kind)
    case None => Err(UnsupportedRepresentation(spec.kind))
    case Some(kind) =>
      var frustum :=
        if kind == DirectionalLight then Some(Frustum(spec.shadowleft, spec.shadowright, spec.shadowbottom, spec.shadowtop))
        else None;
      var shadow := if spec.castshadow then Some(Shadow(spec.shadowfar, spec.shadowmapsize, spec.shadowmapsize, frustum)) else None;
      var light := match kind
        case SpotLight =>
          Light(kind, "", true, spec.color, spec.intensity, Some(spec.distance), Some(spec.decay),
                Some(spec.angle), Some(spec.penumbra), Origin, Some(spec.target), spec.castshadow, shadow)
        case PointLight =>
          Light(kind, "", true, spec.color, spec.intensity, Some(spec.distance), Some(spec.decay),
                None, None, Origin, None, spec.castshadow, shadow)
        case DirectionalLight =>
          Light(kind, "", true, spec.color, spec.intensity, None, None,
                None, None, Origin, Some(Origin), spec.castshadow, shadow);
      var helpers := [Helper(LightHelper(kind), true)] + (if spec.castshadow then [Helper(ShadowCameraHelper, true)] else []);
      Ok(LightDescriptor(light, helpers))
  }

  /** Only a spot light takes its target from the declaration; a directional light aims at the origin. */
  lemma TargetsOfLights(spec: LightSpec)
    requires BuildDescriptor(spec).Ok?
    ensures var light := BuildDescriptor(spec).value.light;
            (light.kind == SpotLight ==> light.target == Some(spec.target))
            && (light.kind == DirectionalLight ==> light.target == Some(Origin))
  {
  }

  /**
   * What the builder returns: the light itself, or, for a light that has a target, a
   * fresh group holding the light and its target.
   */
  datatype LightObject = Bare(light: Light) | Grouped(light: Light)

  /** The visibility flag of the returned object; a fresh group is visible. */
  function ObjectVisible(o: LightObject): bool
  {
    match o
    case Bare(light) => light.visible
    case Grouped(_) => true
  }

  datatype BuiltLight = BuiltLight(returned: LightObject, helpers: seq<Helper>)

  /** The light with its name, switch state and position applied, wrapped in a group when it has a target. */
  function BuildLight(spec: LightSpec): (r: Result<BuiltLight, Error>)
    ensures r.Err? <==> KindOf(spec.kind).None?
    ensures r.Err? ==> r.error == UnsupportedRepresentation(spec.kind)
    ensures r.Ok? ==> r.value.returned.light.name == spec.id && r.value.returned.light.position == spec.position
    ensures r.Ok? ==> (r.value.returned.light.visible <==> spec.enabled)
    ensures r.Ok? ==> (r.value.returned.Grouped? <==> spec.kind != "pointlight")
    ensures r.Ok? ==> r.value.helpers == BuildDescriptor(spec).value.helpers
  {
    var descriptor :- BuildDescriptor(spec);
    var light := descriptor.light.(name := spec.id, visible := spec.enabled, position := spec.position);
    var returned := if light.target.Some? then Grouped(light) else Bare(light);
    Ok(BuiltLight(returned, descriptor.helpers))
  }

  /**
   * The switch state recorded for a light, as written: the visibility of the returned
   * object. For a grouped light that is the group's, which is always on.
   */
  function RecordedStateAsWritten(built: BuiltLight): (on: bool)
    ensures built.returned.light.visible ==> on
    ensures !built.returned.light.visible ==> (on <==> built.returned.Grouped?)
  {
    ObjectVisible(built.returned)
  }

  /** A disabled spot light is recorded as switched on. */
  lemma DisabledSpotLightRecordedOn(spec: LightSpec)
    requires spec.kind == "spotlight" && !spec.enabled
    ensures BuildLight(spec).Ok?
    ensures !BuildLight(spec).value.returned.light.visible
    ensures RecordedStateAsWritten(BuildLight(spec).value)
  {
  }

  /** The switch state recorded for a light: the light's own visibility. */
  function RecordedState(built: BuiltLight): bool
  {
    built.returned.light.visible
  }

  /** The recorded state is the declared one for every kind of light. */
  lemma RecordedStateIsDeclared(spec: LightSpec)
    requires BuildLight(spec).Ok?
    ensures RecordedState(BuildLight(spec).value) == spec.enabled
    ensures RecordedStateAsWritten(BuildLight(spec).value) == (spec.enabled || spec.kind != "pointlight")
  {
  }

  /** The light-switch event: every light with the event's name takes the event's state. */
  function SetLightVisible(lights: seq<Light>, name: string, visible: bool): (r: seq<Light>)
    ensures |r| == |lights|
    ensures forall i :: 0 <= i < |lights| ==> r[i] == lights[i].(visible := if lights[i].name == name then visible else lights[i].visible)
  {
    seq(|lights|, i requires 0 <= i < |lights| =>
      if lights[i].name == name then lights[i].(visible := visible) else lights[i])
  }

  /** Switching a light back to the state it had restores every light. */
  lemma SetLightVisibleUndo(lights: seq<Light>, name: string, visible: bool)
    requires forall i :: 0 <= i < |lights| && lights[i].name == name ==> lights[i].visible == visible
    ensures SetLightVisible(SetLightVisible(lights, name, false), name, visible) == lights
    ensures SetLightVisible(SetLightVisible(lights, name, true), name, visible) == lights
  {
  }

  /** Events for two different names do not interfere. */
  lemma SetLightVisibleCommutes(lights: seq<Light>, a: string, va: bool, b: string, vb: bool)
    requires a != b
    ensures SetLightVisible(SetLightVisible(lights, a, va), b, vb) == SetLightVisible(SetLightVisible(lights, b, vb), a, va)
  {
  }

  /** The helper-switch event: every helper of every light takes the event's state. */
  function SetHelpersVisible(helpers: seq<Helper>, visible: bool): (r: seq<Helper>)
    ensures |r| == |helpers|
    ensures forall i :: 0 <= i < |helpers| ==> r[i].kind == helpers[i].kind
  {
    seq(|helpers|, i requires 0 <= i < |helpers| => helpers[i].(visible := visible))
  }

  /** Helpers end up all on or all off, whatever they were before: only the last event counts. */
  lemma SetHelpersVisibleLastWins(helpers: seq<Helper>, first: bool, second: bool)
    ensures forall i :: 0 <= i < |helpers| ==> SetHelpersVisible(helpers, second)[i].visible == second
    ensures SetHelpersVisible(SetHelpersVisible(helpers, first), second) == SetHelpersVisible(helpers, second)
  {
  }
}
