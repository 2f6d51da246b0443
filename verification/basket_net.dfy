/**
 * The basket-net generator: a stand-alone script that computes the control points
 * of a closed NURBS basket (one ring of points per (height, radius) pair, repeated
 * around a full turn) and prints them as a `<nurbs>` markup block.
 */
module BasketNet {
  import opened Wrappers
  import opened Floats
  import opened Text
  import opened Indexing

  /** One horizontal circle of control points, as a (height, radius) pair of the ring table. */
  datatype Ring = Ring(height: real, radius: real)

  /** A control point as the script builds it, the tuple (x, y, z). */
  datatype Point = Point(x: real, y: real, z: real)

  /** With a single angular segment the angle step divides by zero. */
  datatype GenerationError = DivisionByZero

  /** The script's fixed configuration: degree 127 around, three rings. */
  const DefaultOrderU: nat := 127
  const DefaultRings: seq<Ring> := [Ring(0.4, 0.5), Ring(0.25, 0.3), Ring(-0.4, 0.25)]

  /** The degree across the rings is one less than the number of rings. */
  function OrderV(rings: seq<Ring>): int
  {
    |rings| - 1
  }

  /** The angle of the i-th angular division: a full turn split into segments - 1 steps. */
  function Theta(num: Numerics, i: nat, segments: nat): (theta: real)
    requires 2 <= segments
    ensures i == 0 ==> theta == 0.0
    ensures i == segments - 1 ==> theta == 2.0 * num.pi
  {
    var steps := (segments - 1) as real;
    assert i == segments - 1 ==> i as real * 2.0 * num.pi == steps * (2.0 * num.pi);
    (i as real * 2.0 * num.pi) / steps
  }

  /** Python's `round(radius * factor, 4)`. */
  function RoundedProduct(num: Numerics, radius: real, factor: real): real
  {
    num.round4(radius * factor)
  }

  /** The point for angular division i and ring j: rounded x and z, height copied verbatim. */
  function PointAt(num: Numerics, segments: nat, rings: seq<Ring>, i: nat, j: nat): Point
    requires 2 <= segments && j < |rings|
  {
    var theta := Theta(num, i, segments);
    Point(RoundedProduct(num, rings[j].radius, num.cos(theta)),
          rings[j].height,
          RoundedProduct(num, rings[j].radius, num.sin(theta)))
  }

  /** The inner loop: the points of one angular division, one per ring, in table order. */
  method RingPoints(num: Numerics, segments: nat, rings: seq<Ring>, i: nat) returns (points: seq<Point>)
    requires 2 <= segments
    ensures |points| == |rings|
    ensures forall j | 0 <= j < |rings| :: points[j] == PointAt(num, segments, rings, i, j)
  {
    var theta := Theta(num, i, segments);
    var dx := num.cos(theta);
    var dz := num.sin(theta);
    points := [];
    var j := 0;
    while j < |rings|
      invariant 0 <= j <= |rings|
      invariant |points| == j
      invariant forall j' | 0 <= j' < j :: points[j'] == PointAt(num, segments, rings, i, j')
    {
      var x := RoundedProduct(num, rings[j].radius, dx);
      var z := RoundedProduct(num, rings[j].radius, dz);
      points := points + [Point(x, rings[j].height, z)];
      j := j + 1;
    }
  }

  /**
   * The generation loop: for every angular division, one point per ring in table order.
   * Point (i, j) lands at flat position i * |rings| + j. With orderU = 0 the first angle
   * is 0 / 0, which raises.
   */
  method Generate(num: Numerics, orderU: nat, rings: seq<Ring>) returns (r: Result<seq<Point>, GenerationError>)
    ensures r.Err? <==> orderU == 0
    ensures r.Ok? ==> |r.value| == (orderU + 1) * |rings|
    ensures r.Ok? ==> forall i, j | 0 <= i <= orderU && 0 <= j < |rings| ::
      FlatIndex(|rings|, i, j) < |r.value| && r.value[FlatIndex(|rings|, i, j)] == PointAt(num, orderU + 1, rings, i, j)
  {
    var segments := orderU + 1;
    if segments < 2 {
      return Err(DivisionByZero);
    }
    var width := |rings|;
    var points: seq<Point> := [];
    var i := 0;
    while i < segments
      invariant 0 <= i <= segments
      invariant |points| == i * width
      invariant forall i', j' | 0 <= i' < i && 0 <= j' < width ::
        FlatIndex(width, i', j') < |points| && points[FlatIndex(width, i', j')] == PointAt(num, segments, rings, i', j')
    {
      var ring := RingPoints(num, segments, rings, i);
      var before := points;
      points := points + ring;
      assert (i + 1) * width == i * width + width;
      forall i', j' | 0 <= i' < i + 1 && 0 <= j' < width
        ensures FlatIndex(width, i', j') < |points|
        ensures points[FlatIndex(width, i', j')] == PointAt(num, segments, rings, i', j')
      {
        FlatIndexBelow(width, i', j', i + 1);
        if i' == i {
          assert FlatIndex(width, i', j') == |before| + j';
        } else {
          FlatIndexBelow(width, i', j', i);
        }
      }
      i := i + 1;
    }
    return Ok(points);
  }

  /**
   * Read back in flat order: point k belongs to angular division k div |rings| and to
   * ring k mod |rings|, so its height is that ring's height.
   */
  lemma GeneratedOrder(num: Numerics, orderU: nat, rings: seq<Ring>, points: seq<Point>, k: nat)
    requires 1 <= orderU && 0 < |rings|
    requires |points| == (orderU + 1) * |rings|
    requires forall i, j | 0 <= i <= orderU && 0 <= j < |rings| ::
      FlatIndex(|rings|, i, j) < |points| && points[FlatIndex(|rings|, i, j)] == PointAt(num, orderU + 1, rings, i, j)
    requires k < |points|
    ensures k / |rings| <= orderU && k % |rings| < |rings|
    ensures points[k] == PointAt(num, orderU + 1, rings, k / |rings|, k % |rings|)
    ensures points[k].y == rings[k % |rings|].height
  {
    FlatIndexSurjective(|rings|, orderU + 1, k);
    var i, j := k / |rings|, k % |rings|;
    assert points[FlatIndex(|rings|, i, j)] == PointAt(num, orderU + 1, rings, i, j);
  }

  /** The opening tag with its four attributes; `parts_u` and `parts_v` are fixed text. */
  const OpenTagStart: string := "<nurbs degree_u=\""
  const DegreeVAttribute: string := "\" degree_v=\""
  const OpenTagEnd: string := "\" parts_u=\"16\" parts_v=\"6\">"
  const PointLineStart: string := "    <controlpoint xx=\""
  const YAttribute: string := "\" yy=\""
  const ZAttribute: string := "\" zz=\""
  const PointLineEnd: string := "\" />"
  const CloseTag: string := "</nurbs>"

  /** The opening tag, from which the two degrees read back. */
  function OpenTag(orderU: int, orderV: int): (line: string)
    ensures ParseOpenTag(line) == Some((orderU, orderV))
  {
    var u, v := IntToString(orderU), IntToString(orderV);
    var afterU := DegreeVAttribute + v + OpenTagEnd;
    ReadAttributeOf(OpenTagStart, u, afterU);
    ReadAttributeOf(DegreeVAttribute, v, OpenTagEnd);
    ParseIntToString(orderU);
    ParseIntToString(orderV);
    OpenTagStart + u + afterU
  }

  /**
   * One control point line; `show` is the language's float-to-text conversion. When
   * none of the three texts holds a double quote, they read back in order.
   */
  function PointLine(show: real -> string, p: Point): (line: string)
    ensures '"' !in show(p.x) && '"' !in show(p.y) && '"' !in show(p.z) ==>
              ParsePointLine(line) == Some(ShownCoordinates(show, p))
  {
    var x, y, z := show(p.x), show(p.y), show(p.z);
    var afterY := ZAttribute + z + PointLineEnd;
    var afterX := YAttribute + y + afterY;
    var line := PointLineStart + x + afterX;
    if '"' !in x && '"' !in y && '"' !in z then
      ReadAttributeOf(PointLineStart, x, afterX);
      ReadAttributeOf(YAttribute, y, afterY);
      ReadAttributeOf(ZAttribute, z, PointLineEnd);
      line
    else line
  }

  /** Everything the script prints, one string per line. */
  function Emit(show: real -> string, orderU: int, orderV: int, points: seq<Point>): (lines: seq<string>)
    ensures |lines| == |points| + 2
    ensures lines[0] == OpenTag(orderU, orderV)
    ensures lines[|lines| - 1] == CloseTag
    ensures forall k :: 0 <= k < |points| ==> lines[k + 1] == PointLine(show, points[k])
  {
    [OpenTag(orderU, orderV)] + PointLines(show, points) + [CloseTag]
  }

  /** The control point lines, one per point, in order. */
  function PointLines(show: real -> string, points: seq<Point>): (lines: seq<string>)
    ensures |lines| == |points|
    ensures forall k :: 0 <= k < |points| ==> lines[k] == PointLine(show, points[k])
  {
    seq(|points|, k requires 0 <= k < |points| => PointLine(show, points[k]))
  }

  // Reading the markup back.

  /** The three attribute texts of one control point line. */
  datatype Coordinates = Coordinates(x: string, y: string, z: string)

  datatype Markup = Markup(degreeU: int, degreeV: int, points: seq<Coordinates>)

  /** After `prefix`, the attribute text up to the next quote, and what follows it. */
  function ReadAttribute(prefix: string, s: string): Option<(string, string)>
  {
    var rest :- StripPrefix(prefix, s);
    Some(SplitAt(rest, '"'))
  }

  lemma ReadAttributeOf(prefix: string, value: string, t: string)
    requires '"' !in value
    requires t == [] || t[0] == '"'
    ensures ReadAttribute(prefix, prefix + value + t) == Some((value, t))
  {
    assert prefix + value + t == prefix + (value + t);
    StripPrefixOf(prefix, value + t);
    SplitAtConcat(value, t, '"');
  }

  function ParseOpenTag(line: string): Option<(int, int)>
  {
    var u :- ReadAttribute(OpenTagStart, line);
    var v :- ReadAttribute(DegreeVAttribute, u.1);
    if v.1 != OpenTagEnd then None
    else
      var degreeU :- ParseInt(u.0);
      var degreeV :- ParseInt(v.0);
      Some((degreeU, degreeV))
  }

  function ParsePointLine(line: string): Option<Coordinates>
  {
    var x :- ReadAttribute(PointLineStart, line);
    var y :- ReadAttribute(YAttribute, x.1);
    var z :- ReadAttribute(ZAttribute, y.1);
    if z.1 != PointLineEnd then None else Some(Coordinates(x.0, y.0, z.0))
  }

  function ParsePointLines(lines: seq<string>): Option<seq<Coordinates>>
  {
    if |lines| == 0 then Some([])
    else
      var first :- ParsePointLine(lines[0]);
      var rest :- ParsePointLines(lines[1..]);
      Some([first] + rest)
  }

  /** Reads the printed block back into its degrees and coordinate texts. */
  function ParseMarkup(lines: seq<string>): Option<Markup>
  {
    if |lines| < 2 || lines[|lines| - 1] != CloseTag then None
    else
      var degrees :- ParseOpenTag(lines[0]);
      var points :- ParsePointLines(lines[1..|lines| - 1]);
      Some(Markup(degrees.0, degrees.1, points))
  }

  /** Python's float text never contains a double quote. */
  ghost predicate QuoteFree(show: real -> string)
  {
    forall x :: '"' !in show(x)
  }

  function ShownCoordinates(show: real -> string, p: Point): Coordinates
  {
    Coordinates(show(p.x), show(p.y), show(p.z))
  }

  lemma {:induction false} ParsePointLinesOf(lines: seq<string>, coords: seq<Coordinates>)
    requires |lines| == |coords|
    requires forall k :: 0 <= k < |lines| ==> ParsePointLine(lines[k]) == Some(coords[k])
    ensures ParsePointLines(lines) == Some(coords)
  {
    if |lines| > 0 {
      assert ParsePointLine(lines[0]) == Some(coords[0]);
      var restLines, restCoords := lines[1..], coords[1..];
      forall k | 0 <= k < |restLines|
        ensures ParsePointLine(restLines[k]) == Some(restCoords[k])
      {
        assert restLines[k] == lines[k + 1] && restCoords[k] == coords[k + 1];
      }
      ParsePointLinesOf(restLines, restCoords);
      assert [coords[0]] + restCoords == coords;
    }
  }

  /** What is printed reads back as the degrees and, line by line, the points' coordinate texts. */
  lemma ParseEmit(show: real -> string, orderU: int, orderV: int, points: seq<Point>)
    requires QuoteFree(show)
    ensures ParseMarkup(Emit(show, orderU, orderV, points))
         == Some(Markup(orderU, orderV, seq(|points|, k requires 0 <= k < |points| => ShownCoordinates(show, points[k]))))
  {
    var lines := Emit(show, orderU, orderV, points);
    var body := lines[1..|lines| - 1];
    var coords := seq(|points|, k requires 0 <= k < |points| => ShownCoordinates(show, points[k]));
    forall k | 0 <= k < |body|
      ensures ParsePointLine(body[k]) == Some(coords[k])
    {
      assert body[k] == lines[k + 1] == PointLine(show, points[k]);
      assert '"' !in show(points[k].x) && '"' !in show(points[k].y) && '"' !in show(points[k].z);
    }
    ParsePointLinesOf(body, coords);
  }

  /**
   * The script end to end with its fixed configuration: 128 angular divisions of three
   * rings give 384 point lines between the opening and closing tag.
   */
  method BasketNetMarkup(num: Numerics, show: real -> string) returns (r: Result<seq<string>, GenerationError>)
    ensures r.Ok?
    ensures |r.value| == 386
    ensures r.value[0] == OpenTag(127, 2)
    ensures r.value[385] == CloseTag
  {
    var generated := Generate(num, DefaultOrderU, DefaultRings);
    assert generated.Ok?;
    var lines := Emit(show, DefaultOrderU, OrderV(DefaultRings), generated.value);
    return Ok(lines);
  }

  /** The degrees print as the decimal texts "127" and "2". */
  lemma DefaultDegreeTexts()
    ensures IntToString(DefaultOrderU) == "127"
    ensures IntToString(OrderV(DefaultRings)) == "2"
  {
    assert NatToString(1) == "1";
    assert NatToString(12) == NatToString(1) + "2";
    assert NatToString(127) == NatToString(12) + "7";
  }
}
