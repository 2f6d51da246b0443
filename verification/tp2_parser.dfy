/**
 * The first-cut scene parser of the second practical class: a walk from the
 * "scene" entry of the node table that turns every node into a group of its
 * children, skips references to ids the table does not hold, and builds each
 * inline primitive's representations without passing any context.
 */
module Tp2Parser {
  import opened Wrappers
  import opened Floats
  import opened SceneGraph
  import Tp2PrimitiveBuilder

  /** A child of a node: a primitive written in place, or a reference by id to an entry of the node table. */
  datatype Child = InlinePrimitive(representations: seq<Primitive>) | Reference(id: string)

  /** An entry of the node table: its `type` and its children. */
  datatype Entry = Entry(kind: string, children: seq<Child>)

  type Nodes = map<string, Entry>

  datatype Built<M> = Group(children: seq<Built<M>>) | MeshObject(mesh: Tp2PrimitiveBuilder.Mesh<M>)

  /** The children the walk keeps: every inline primitive, and every reference the table resolves. */
  function Resolved(nodes: Nodes, children: seq<Child>): (r: seq<Child>)
    ensures |r| <= |children|
    ensures forall k :: 0 <= k < |r| ==> r[k] in children && (r[k].Reference? ==> r[k].id in nodes)
  {
    if children == [] then []
    else
      var rest := Resolved(nodes, children[1..]);
      if children[0].Reference? && children[0].id !in nodes then rest else [children[0]] + rest
  }

  /**
   * The representations built one after the other into meshes; the first one
   * that throws ends the loop with its error.
   */
  function BuildAll<M>(num: Numerics, reps: seq<Primitive>, activeMaterials: Option<seq<M>>): (r: Result<seq<Built<M>>, Error>)
    ensures reps == [] ==> r == Ok([])
    ensures r.Ok? ==> |r.value| == |reps| && forall k :: 0 <= k < |r.value| ==> r.value[k].MeshObject?
    decreases |reps|
  {
    if reps == [] then Ok([])
    else
      match Tp2PrimitiveBuilder.BuildRepresentation(num, reps[0], activeMaterials)
      case Err(e) => Err(e)
      case Ok(mesh) =>
        match BuildAll(num, reps[1..], activeMaterials)
        case Err(e) => Err(e)
        case Ok(rest) => Ok([MeshObject(mesh)] + rest)
  }

  /** Built meshes correspond one to one, in order, to the representations; an error is the first failing representation's. */
  lemma {:induction false} BuildAllMeshes<M>(num: Numerics, reps: seq<Primitive>, activeMaterials: Option<seq<M>>)
    ensures var r := BuildAll(num, reps, activeMaterials);
            (r.Ok? <==> forall i :: 0 <= i < |reps| ==> Tp2PrimitiveBuilder.BuildRepresentation(num, reps[i], activeMaterials).Ok?) &&
            (r.Ok? ==>
               (|r.value| == |reps| &&
                forall i :: 0 <= i < |reps| ==>
                  r.value[i] == MeshObject(Tp2PrimitiveBuilder.BuildRepresentation(num, reps[i], activeMaterials).value))) &&
            (r.Err? ==>
               (exists i :: 0 <= i < |reps| &&
                  (forall k :: 0 <= k < i ==> Tp2PrimitiveBuilder.BuildRepresentation(num, reps[k], activeMaterials).Ok?) &&
                  Tp2PrimitiveBuilder.BuildRepresentation(num, reps[i], activeMaterials) == Err(r.error)))
    decreases |reps|
  {
    if reps != [] {
      BuildAllMeshes(num, reps[1..], activeMaterials);
      var r := BuildAll(num, reps, activeMaterials);
      var head := Tp2PrimitiveBuilder.BuildRepresentation(num, reps[0], activeMaterials);
      if head.Ok? && BuildAll(num, reps[1..], activeMaterials).Err? {
        var rest := BuildAll(num, reps[1..], activeMaterials);
        var i :| 0 <= i < |reps[1..]| &&
          (forall k :: 0 <= k < i ==> Tp2PrimitiveBuilder.BuildRepresentation(num, reps[1..][k], activeMaterials).Ok?) &&
          Tp2PrimitiveBuilder.BuildRepresentation(num, reps[1..][i], activeMaterials) == Err(rest.error);
        assert Tp2PrimitiveBuilder.BuildRepresentation(num, reps[i + 1], activeMaterials) == Err(r.error);
        forall k | 0 <= k < i + 1
          ensures Tp2PrimitiveBuilder.BuildRepresentation(num, reps[k], activeMaterials).Ok?
        {
          if k > 0 {
            assert reps[k] == reps[1..][k - 1];
          }
        }
      }
      if r.Ok? {
        forall i | 0 <= i < |reps|
          ensures r.value[i] == MeshObject(Tp2PrimitiveBuilder.BuildRepresentation(num, reps[i], activeMaterials).value)
        {
          if i > 0 {
            assert reps[i] == reps[1..][i - 1];
          }
        }
      }
      if !head.Ok? {
        assert !Tp2PrimitiveBuilder.BuildRepresentation(num, reps[0], activeMaterials).Ok?;
      } else if BuildAll(num, reps[1..], activeMaterials).Err? {
        var j :| 0 <= j < |reps[1..]| && !Tp2PrimitiveBuilder.BuildRepresentation(num, reps[1..][j], activeMaterials).Ok?;
        assert !Tp2PrimitiveBuilder.BuildRepresentation(num, reps[j + 1], activeMaterials).Ok?;
      }
    }
  }

  /** `#visitPrimitive`: a group of the representations' meshes, built with no context at all. */
  function VisitPrimitive<M>(num: Numerics, reps: seq<Primitive>): (r: Result<Built<M>, Error>)
    ensures r.Ok? ==> r.value.Group? && |r.value.children| == |reps|
    ensures r.Ok? ==> forall k :: 0 <= k < |r.value.children| ==> r.value.children[k].MeshObject?
  {
    match BuildAll<M>(num, reps, None)
    case Err(e) => Err(e)
    case Ok(meshes) => Ok(Group(meshes))
  }

  /**
   * Since no context reaches `buildRepresentation`, a primitive builds only when
   * it has no representations: otherwise the first one throws, either because its
   * type is unsupported or because the missing context is read.
   */
  lemma PrimitivesNeverBuild<M>(num: Numerics, reps: seq<Primitive>)
    ensures VisitPrimitive<M>(num, reps).Ok? <==> reps == []
    ensures reps == [] ==> VisitPrimitive<M>(num, reps) == Ok(Group([]))
    ensures reps != [] ==>
      VisitPrimitive<M>(num, reps) ==
        Err(if reps[0].Model3DPrimitive? || reps[0].PolygonPrimitive? then UnsupportedRepresentation(Subtype(reps[0])) else TypeError)
  {
  }

  /**
   * `#visitNode`: an entry whose type is not "node" throws; otherwise a group of
   * its visited children. `fuel` is the depth of calls the stack still allows.
   */
  function VisitEntry<M>(num: Numerics, nodes: Nodes, entry: Entry, fuel: nat): (r: Result<Built<M>, Error>)
    ensures fuel == 0 ==> r == Err(CallStackExhausted)
    ensures fuel > 0 && entry.kind != "node" ==> r == Err(NotANode)
    ensures r.Ok? ==> r.value.Group?
    decreases fuel, 0, 0
  {
    if fuel == 0 then Err(CallStackExhausted)
    else if entry.kind != "node" then Err(NotANode)
    else
      match VisitChildren<M>(num, nodes, entry.children, fuel - 1)
      case Err(e) => Err(e)
      case Ok(built) => Ok(Group(built))
  }

  /** `#visitChild`: an inline primitive is visited in place; a reference the table does not resolve yields `null`. */
  function VisitChild<M>(num: Numerics, nodes: Nodes, child: Child, fuel: nat): (r: Result<Option<Built<M>>, Error>)
    ensures child.Reference? && child.id !in nodes ==> r == Ok(None)
    ensures r.Ok? && r.value.None? ==> child.Reference? && child.id !in nodes
    ensures r.Ok? && r.value.Some? ==> r.value.value.Group?
    decreases fuel, 1, 0
  {
    match child
    case InlinePrimitive(reps) =>
      (match VisitPrimitive<M>(num, reps)
       case Err(e) => Err(e)
       case Ok(built) => Ok(Some(built)))
    case Reference(id) =>
      if id !in nodes then Ok(None)
      else
        match VisitEntry<M>(num, nodes, nodes[id], fuel)
        case Err(e) => Err(e)
        case Ok(built) => Ok(Some(built))
  }

  /** The loop over a node's children: the ones visited to `null` are left out of the group. */
  function VisitChildren<M>(num: Numerics, nodes: Nodes, children: seq<Child>, fuel: nat): (r: Result<seq<Built<M>>, Error>)
    ensures r.Ok? ==> |r.value| <= |children| && forall k :: 0 <= k < |r.value| ==> r.value[k].Group?
    ensures (forall k :: 0 <= k < |children| ==> children[k].Reference? && children[k].id !in nodes) ==> r == Ok([])
    decreases fuel, 2, |children|
  {
    if children == [] then Ok([])
    else
      match VisitChild<M>(num, nodes, children[0], fuel)
      case Err(e) => Err(e)
      case Ok(first) =>
        match VisitChildren<M>(num, nodes, children[1..], fuel)
        case Err(e) => Err(e)
        case Ok(rest) => Ok(if first.Some? then [first.value] + rest else rest)
  }

  /** Dropping the dangling references first changes nothing: the walk skips them silently. */
  lemma {:induction false} DanglingReferencesSkipped<M>(num: Numerics, nodes: Nodes, children: seq<Child>, fuel: nat)
    ensures VisitChildren<M>(num, nodes, children, fuel) == VisitChildren<M>(num, nodes, Resolved(nodes, children), fuel)
    decreases |children|
  {
    if children != [] {
      DanglingReferencesSkipped<M>(num, nodes, children[1..], fuel);
      var rest := Resolved(nodes, children[1..]);
      if !(children[0].Reference? && children[0].id !in nodes) {
        assert Resolved(nodes, children) == [children[0]] + rest;
        assert ([children[0]] + rest)[1..] == rest;
      }
    }
  }

  /** A group holds exactly one built child per resolved child, each the visit of that child, in order. */
  lemma {:induction false} OneChildPerResolvedChild<M>(num: Numerics, nodes: Nodes, children: seq<Child>, fuel: nat)
    requires VisitChildren<M>(num, nodes, children, fuel).Ok?
    ensures var built := VisitChildren<M>(num, nodes, children, fuel).value;
            var kept := Resolved(nodes, children);
            |built| == |kept| &&
            forall k :: 0 <= k < |kept| ==> VisitChild<M>(num, nodes, kept[k], fuel) == Ok(Some(built[k]))
    decreases |children|
  {
    if children != [] {
      OneChildPerResolvedChild<M>(num, nodes, children[1..], fuel);
      var built := VisitChildren<M>(num, nodes, children, fuel).value;
      var restBuilt := VisitChildren<M>(num, nodes, children[1..], fuel).value;
      var rest := Resolved(nodes, children[1..]);
      if !(children[0].Reference? && children[0].id !in nodes) {
        var first := VisitChild<M>(num, nodes, children[0], fuel).value;
        assert built == [first.value] + restBuilt;
        assert Resolved(nodes, children) == [children[0]] + rest;
        forall k | 0 <= k < |rest| + 1
          ensures VisitChild<M>(num, nodes, ([children[0]] + rest)[k], fuel) == Ok(Some(built[k]))
        {
          if k > 0 {
            assert ([children[0]] + rest)[k] == rest[k - 1];
            assert built[k] == restBuilt[k - 1];
          }
        }
      }
    }
  }

  /** `visitNodes`: the walk starts at the "scene" entry; without one, reading its type throws. */
  function VisitNodes<M>(num: Numerics, nodes: Nodes, fuel: nat): (r: Result<Built<M>, Error>)
    ensures "scene" !in nodes ==> r == Err(TypeError)
    ensures "scene" in nodes ==> r == VisitEntry<M>(num, nodes, nodes["scene"], fuel)
  {
    if "scene" !in nodes then Err(TypeError) else VisitEntry<M>(num, nodes, nodes["scene"], fuel)
  }

  /** A scene that lists itself among its children recurses until the stack runs out, however deep it is. */
  lemma {:induction false} SelfReferenceExhaustsStack<M>(num: Numerics, nodes: Nodes, fuel: nat)
    requires "scene" in nodes && nodes["scene"].kind == "node"
    requires nodes["scene"].children == [Reference("scene")]
    ensures VisitNodes<M>(num, nodes, fuel) == Err(CallStackExhausted)
  {
    if fuel > 0 {
      SelfReferenceExhaustsStack<M>(num, nodes, fuel - 1);
      var children := nodes["scene"].children;
      assert VisitChild<M>(num, nodes, children[0], fuel - 1) == Err(CallStackExhausted);
      assert VisitChildren<M>(num, nodes, children, fuel - 1) == Err(CallStackExhausted);
    }
  }
}
