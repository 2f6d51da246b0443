/**
 * The proj-2 NURBS builder up to the library call: the clamped knot vectors of both
 * directions and the control grid restacked as homogeneous four-component points.
 */
module NurbsBuilder {
  import opened Wrappers
  import opened SceneGraph

  /** A homogeneous control point. */
  datatype Vec4 = Vec4(x: real, y: real, z: real, w: real)

  /**
   * A control point as the builder receives it: its coordinate list, or `undefined`
   * where the grid it was given has a hole.
   */
  type Cell = Option<seq<real>>

  /** The knot vector of a degree: degree + 1 zeros followed by degree + 1 ones. */
  method Knots(degree: nat) returns (knots: seq<real>)
    ensures |knots| == 2 * (degree + 1)
    ensures forall i :: 0 <= i < |knots| ==> knots[i] == (if i <= degree then 0.0 else 1.0)
  {
    knots := [];
    var i := 0;
    while i <= degree
      invariant i <= degree + 1 && |knots| == i
      invariant forall k :: 0 <= k < |knots| ==> knots[k] == 0.0
    {
      knots := knots + [0.0];
      i := i + 1;
    }
    i := 0;
    while i <= degree
      invariant i <= degree + 1 && |knots| == degree + 1 + i
      invariant forall k :: 0 <= k < |knots| ==> knots[k] == (if k <= degree then 0.0 else 1.0)
    {
      knots := knots + [1.0];
      i := i + 1;
    }
  }

  /** A knot vector clamped to [0, 1]: non-decreasing, with every knot 0 or 1. */
  ghost predicate Clamped(knots: seq<real>)
  {
    && (forall i, j :: 0 <= i <= j < |knots| ==> knots[i] <= knots[j])
    && (forall i :: 0 <= i < |knots| ==> knots[i] == 0.0 || knots[i] == 1.0)
  }

  lemma KnotsClamped(degree: nat, knots: seq<real>)
    requires forall i :: 0 <= i < |knots| ==> knots[i] == (if i <= degree then 0.0 else 1.0)
    ensures Clamped(knots)
  {
  }

  /**
   * A coordinate of the point: component i of the list, or the default the vector
   * constructor substitutes for an `undefined` argument.
   */
  function Component(item: seq<real>, i: nat, default: real): real
  {
    if i < |item| then item[i] else default
  }

  /** The homogeneous point made from a coordinate list: missing x, y, z are 0, a missing weight is 1. */
  function Stack(item: seq<real>): (p: Vec4)
    ensures |item| >= 4 ==> p == Vec4(item[0], item[1], item[2], item[3])
    ensures |item| == 3 ==> p == Vec4(item[0], item[1], item[2], 1.0)
  {
    Vec4(Component(item, 0, 0.0), Component(item, 1, 0.0), Component(item, 2, 0.0), Component(item, 3, 1.0))
  }

  /** Some cell of the grid is `undefined`. */
  ghost predicate HasHole(grid: seq<seq<Cell>>)
  {
    exists i, j :: 0 <= i < |grid| && 0 <= j < |grid[i]| && grid[i][j].None?
  }

  /** One row of the restacking pass; reading a coordinate of `undefined` throws. */
  method StackRow(row: seq<Cell>) returns (r: Result<seq<Vec4>, Error>)
    ensures r.Err? <==> exists j :: 0 <= j < |row| && row[j].None?
    ensures r.Err? ==> r.error == TypeError
    ensures r.Ok? ==> |r.value| == |row|
    ensures r.Ok? ==> forall j :: 0 <= j < |row| ==> row[j].Some? && r.value[j] == Stack(row[j].value)
  {
    var newRow: seq<Vec4> := [];
    var j := 0;
    while j < |row|
      invariant j <= |row| && |newRow| == j
      invariant forall k :: 0 <= k < j ==> row[k].Some? && newRow[k] == Stack(row[k].value)
    {
      var item := row[j];
      if item.None? {
        return Err(TypeError);
      }
      newRow := newRow + [Stack(item.value)];
      j := j + 1;
    }
    return Ok(newRow);
  }

  /**
   * The restacking pass: every row of the grid, every point of each row, in place.
   * A hole anywhere makes the whole build throw.
   */
  method StackPoints(controlPoints: seq<seq<Cell>>) returns (r: Result<seq<seq<Vec4>>, Error>)
    ensures r.Err? <==> HasHole(controlPoints)
    ensures r.Err? ==> r.error == TypeError
    ensures r.Ok? ==> |r.value| == |controlPoints|
    ensures r.Ok? ==> forall i :: 0 <= i < |controlPoints| ==> |r.value[i]| == |controlPoints[i]|
    ensures r.Ok? ==> forall i, j :: 0 <= i < |controlPoints| && 0 <= j < |controlPoints[i]| ==>
              controlPoints[i][j].Some? && r.value[i][j] == Stack(controlPoints[i][j].value)
  {
    var stackedPoints: seq<seq<Vec4>> := [];
    var i := 0;
    while i < |controlPoints|
      invariant i <= |controlPoints| && |stackedPoints| == i
      invariant forall k :: 0 <= k < i ==> |stackedPoints[k]| == |controlPoints[k]|
      invariant forall k, j :: 0 <= k < i && 0 <= j < |controlPoints[k]| ==>
                  controlPoints[k][j].Some? && stackedPoints[k][j] == Stack(controlPoints[k][j].value)
    {
      var newRow := StackRow(controlPoints[i]);
      if newRow.Err? {
        return Err(newRow.error);
      }
      stackedPoints := stackedPoints + [newRow.value];
      i := i + 1;
    }
    return Ok(stackedPoints);
  }

  /** The knot vector of a degree, as a definition: degree + 1 zeros, then degree + 1 ones. */
  function ClampedKnots(degree: nat): (r: seq<real>)
    ensures |r| == 2 * (degree + 1) && Clamped(r)
  {
    seq(2 * (degree + 1), i requires 0 <= i < 2 * (degree + 1) => if i <= degree then 0.0 else 1.0)
  }

  /** The restacked row, as a definition: the first hole makes it fail. */
  function StackedRow(row: seq<Cell>): (r: Result<seq<Vec4>, Error>)
    ensures r.Err? <==> exists j :: 0 <= j < |row| && row[j].None?
    ensures r.Err? ==> r.error == TypeError
    ensures r.Ok? ==> |r.value| == |row|
    ensures r.Ok? ==> forall j :: 0 <= j < |row| ==> row[j].Some? && r.value[j] == Stack(row[j].value)
  {
    if row == [] then Ok([])
    else if row[0].None? then Err(TypeError)
    else
      match StackedRow(row[1..])
      case Err(e) => Err(e)
      case Ok(rest) =>
        assert forall j :: 1 <= j < |row| ==> row[j] == row[1..][j - 1];
        Ok([Stack(row[0].value)] + rest)
  }

  /** The restacked grid, as a definition: row by row, failing on the first hole. */
  function StackedGrid(grid: seq<seq<Cell>>): (r: Result<seq<seq<Vec4>>, Error>)
    ensures r.Err? <==> HasHole(grid)
    ensures r.Err? ==> r.error == TypeError
    ensures r.Ok? ==> |r.value| == |grid|
    ensures r.Ok? ==> forall i :: 0 <= i < |grid| ==> |r.value[i]| == |grid[i]|
    ensures r.Ok? ==> forall i, j :: 0 <= i < |grid| && 0 <= j < |grid[i]| ==>
              grid[i][j].Some? && r.value[i][j] == Stack(grid[i][j].value)
  {
    if grid == [] then Ok([])
    else
      match StackedRow(grid[0])
      case Err(e) => Err(e)
      case Ok(row) =>
        match StackedGrid(grid[1..])
        case Err(e) =>
          assert HasHole(grid) by {
            var i, j :| 0 <= i < |grid[1..]| && 0 <= j < |grid[1..][i]| && grid[1..][i][j].None?;
            assert grid[i + 1][j].None?;
          }
          Err(e)
        case Ok(rest) =>
          assert forall i :: 1 <= i < |grid| ==> grid[i] == grid[1..][i - 1];
          Ok([row] + rest)
  }

  /** What the builder hands to the surface constructor and the sampler. */
  datatype Surface = Surface(
    degree1: nat, degree2: nat, knots1: seq<real>, knots2: seq<real>,
    points: seq<seq<Vec4>>, samples1: int, samples2: int)

  /** The surface of a control grid, as a definition. */
  function SurfaceOf(controlPoints: seq<seq<Cell>>, degree1: nat, degree2: nat, samples1: int, samples2: int)
    : Result<Surface, Error>
  {
    match StackedGrid(controlPoints)
    case Err(e) => Err(e)
    case Ok(points) => Ok(Surface(degree1, degree2, ClampedKnots(degree1), ClampedKnots(degree2), points, samples1, samples2))
  }

  /** The builder: both knot vectors, then the restacked grid. */
  method Build(controlPoints: seq<seq<Cell>>, degree1: nat, degree2: nat, samples1: int, samples2: int)
    returns (r: Result<Surface, Error>)
    ensures r.Err? <==> HasHole(controlPoints)
    ensures r.Ok? ==> r.value.degree1 == degree1 && r.value.degree2 == degree2
    ensures r.Ok? ==> |r.value.knots1| == 2 * (degree1 + 1) && Clamped(r.value.knots1)
    ensures r.Ok? ==> |r.value.knots2| == 2 * (degree2 + 1) && Clamped(r.value.knots2)
    ensures r.Ok? ==> |r.value.points| == |controlPoints|
    ensures r.Ok? ==> forall i, j :: 0 <= i < |controlPoints| && 0 <= j < |controlPoints[i]| ==>
              j < |r.value.points[i]| && controlPoints[i][j].Some?
              && r.value.points[i][j] == Stack(controlPoints[i][j].value)
    ensures r.Ok? ==> r.value.samples1 == samples1 && r.value.samples2 == samples2
    ensures r == SurfaceOf(controlPoints, degree1, degree2, samples1, samples2)
  {
    var knots1 := Knots(degree1);
    var knots2 := Knots(degree2);
    KnotsClamped(degree1, knots1);
    KnotsClamped(degree2, knots2);
    assert knots1 == ClampedKnots(degree1);
    assert knots2 == ClampedKnots(degree2);
    var stackedPoints := StackPoints(controlPoints);
    if stackedPoints.Err? {
      return Err(stackedPoints.error);
    }
    var reference := StackedGrid(controlPoints).value;
    forall i | 0 <= i < |controlPoints| ensures stackedPoints.value[i] == reference[i] {
      assert |stackedPoints.value[i]| == |reference[i]| == |controlPoints[i]|;
      assert forall j :: 0 <= j < |controlPoints[i]| ==> stackedPoints.value[i][j] == reference[i][j];
    }
    assert stackedPoints.value == reference;
    return Ok(Surface(degree1, degree2, knots1, knots2, stackedPoints.value, samples1, samples2));
  }
}
