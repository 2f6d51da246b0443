/**
 * The flower-pot factory of the first project and of the first practical class:
 * half a pot is a NURBS surface whose control grid sweeps a five-ring profile
 * through half a turn, and the pot is that half plus a copy turned by pi.
 */
module FlowerPot {
  import opened Wrappers
  import opened Floats
  import opened ControlGrids

  /** The angular degree of a half pot; the grid has one row per angle, `OrderU + 1` of them. */
  const OrderU: nat := 31
  const Samples: nat := 24

  /** One `[y, radius]` entry of the profile table. */
  datatype Ring = Ring(y: real, radius: real)

  /** The profile table, bottom to top, scaled by the pot's vertical and radial factors. */
  function Profile(scaleXZ: real, scaleY: real): (p: seq<Ring>)
    ensures |p| == 5
    ensures p[0].y < p[1].y < p[2].y < p[3].y < p[4].y <== scaleY > 0.0
    ensures scaleXZ > 0.0 ==> forall j :: 0 <= j < |p| ==> p[j].radius > 0.0
  {
    [ Ring(-0.5 * scaleY, 0.25 * scaleXZ),
      Ring(-0.3 * scaleY, 0.375 * scaleXZ),
      Ring(0.0 * scaleY, 0.375 * scaleXZ),
      Ring(0.3 * scaleY, 0.375 * scaleXZ),
      Ring(0.5 * scaleY, 0.5 * scaleXZ) ]
  }

  /** The angle of row `i`: `i * pi / (segments - 1)` with `segments = OrderU + 1`. */
  function Theta(num: Numerics, i: nat): real
  {
    (i as real * num.pi) / (OrderU as real)
  }

  /** Each ring turned to angle `theta`: `[dx * radius, y, dz * radius]`. */
  function RingPoint(num: Numerics, theta: real, ring: Ring): Point
  {
    Point(num.cos(theta) * ring.radius, ring.y, num.sin(theta) * ring.radius)
  }

  /** The control grid of a half pot: row `i` is the whole profile at angle `Theta(i)`. */
  function HalfGrid(num: Numerics, profile: seq<Ring>): (g: Grid)
    ensures Rectangular(g, OrderU + 1, |profile|)
    ensures forall i, j :: 0 <= i < |g| && 0 <= j < |g[i]| ==> g[i][j].y == profile[j].y
  {
    seq(OrderU + 1, i requires 0 <= i <= OrderU =>
      seq(|profile|, j requires 0 <= j < |profile| => RingPoint(num, Theta(num, i), profile[j])))
  }

  /** Point `j` of every row keeps ring `j`'s height; x and z share the row's angle. */
  lemma HeightsPassThrough(num: Numerics, profile: seq<Ring>, i: nat, j: nat)
    requires i <= OrderU && j < |profile|
    ensures HalfGrid(num, profile)[i][j].y == profile[j].y
    ensures HalfGrid(num, profile)[i][j].x == num.cos(Theta(num, i)) * profile[j].radius
    ensures HalfGrid(num, profile)[i][j].z == num.sin(Theta(num, i)) * profile[j].radius
  {
  }

  /** The rows sweep exactly half a turn: from angle 0 at row 0 to pi at the last row. */
  lemma HalfTurn(num: Numerics)
    ensures Theta(num, 0) == 0.0
    ensures Theta(num, OrderU) == num.pi
    ensures forall i: nat, k: nat :: i < k <= OrderU && num.pi > 0.0 ==> Theta(num, i) < Theta(num, k)
  {
    forall i: nat, k: nat | i < k <= OrderU && num.pi > 0.0
      ensures Theta(num, i) < Theta(num, k)
    {
      assert i as real * num.pi < k as real * num.pi;
    }
  }

  /** A built half: the surface-builder call, the mesh's shadow flags and y rotation, and its reported size. */
  datatype Half = Half(surface: SurfaceRequest, castShadow: bool, receiveShadow: bool, rotationY: real, dims: Dims)

  datatype Pot = Pot(halves: seq<Half>, dims: Dims)

  /** `#buildHalfFlowerPot`: the grid goes to the builder with degrees `OrderU` and profile length minus one. */
  function BuildHalf(num: Numerics, scaleXZ: real, scaleY: real): (h: Half)
    ensures MatchesDegrees(h.surface)
    ensures h.surface.degreeU == 31 && h.surface.degreeV == 4
    ensures h.surface.samplesU == 24 && h.surface.samplesV == 24
    ensures forall i, j :: 0 <= i < |h.surface.points| && 0 <= j < |h.surface.points[i]| ==>
      h.surface.points[i][j].y == Profile(scaleXZ, scaleY)[j].y
    ensures h.castShadow && !h.receiveShadow && h.rotationY == 0.0
    ensures h.dims == Dims(1.0, 1.0, 1.0)
  {
    var profile := Profile(scaleXZ, scaleY);
    var surface := SurfaceRequest(HalfGrid(num, profile), OrderU, |profile| - 1, Samples, Samples);
    Half(surface, true, false, 0.0, Dims(1.0, 1.0, 1.0))
  }

  /** The first project's `build`: both scales default to 1; the second half is a clone of the first turned by pi, both cast and receive shadows. */
  function BuildPot(num: Numerics, scaleXZ: Option<real>, scaleY: Option<real>): (r: Pot)
    ensures |r.halves| == 2
    ensures r.halves[0].surface == BuildHalf(num, scaleXZ.GetOr(1.0), scaleY.GetOr(1.0)).surface
    ensures r.halves[1] == r.halves[0].(rotationY := r.halves[0].rotationY + num.pi)
    ensures forall k :: 0 <= k < 2 ==> r.halves[k].castShadow && r.halves[k].receiveShadow
    ensures r.dims == r.halves[0].dims == Dims(1.0, 1.0, 1.0)
  {
    var half := BuildHalf(num, scaleXZ.GetOr(1.0), scaleY.GetOr(1.0)).(receiveShadow := true, castShadow := true);
    var other := half.(rotationY := half.rotationY + num.pi);
    Pot([half, other], half.dims)
  }

  /** The practical-class `build(scaleXZ = 1, scaleY = 1)`: two halves built independently, the second turned by pi; shadow flags are left as the half builder set them. */
  function BuildPotClass(num: Numerics, scaleXZ: Option<real>, scaleY: Option<real>): (r: Pot)
    ensures |r.halves| == 2
    ensures r.halves[1].surface == r.halves[0].surface
    ensures r.halves[1].rotationY == r.halves[0].rotationY + num.pi
    ensures forall k :: 0 <= k < 2 ==> r.halves[k].castShadow && !r.halves[k].receiveShadow
    ensures r.dims == r.halves[0].dims
  {
    var sxz := scaleXZ.GetOr(1.0);
    var sy := scaleY.GetOr(1.0);
    var half := BuildHalf(num, sxz, sy);
    var other := BuildHalf(num, sxz, sy);
    Pot([half, other.(rotationY := other.rotationY + num.pi)], half.dims)
  }

  /** The two versions build the same surfaces and sizes; they differ only in whether the halves receive shadows. */
  lemma VersionsDifferOnlyInReceivedShadow(num: Numerics, scaleXZ: Option<real>, scaleY: Option<real>)
    ensures var a := BuildPot(num, scaleXZ, scaleY);
            var b := BuildPotClass(num, scaleXZ, scaleY);
            a.dims == b.dims &&
            forall k :: 0 <= k < 2 ==> a.halves[k] == b.halves[k].(receiveShadow := true)
  {
  }
}
