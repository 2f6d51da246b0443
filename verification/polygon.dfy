/**
 * The buffers of the proj-2 polygon primitive. The vertex buffer holds the centre
 * followed by `stacks` vertices along each of `slices` spokes; the index buffer holds,
 * for every spoke, the fan triangle at the centre and two triangles per quad between
 * this spoke and the next; the colour buffer gives every vertex a colour that runs
 * linearly from the centre colour to the outer colour along each spoke.
 */
module Polygon {
  import opened Floats
  import opened Indexing
  import opened SceneGraph

  /**
   * Position in the vertex buffer of the innermost vertex of spoke `s`: the centre
   * comes first, then each spoke takes `stacks` positions.
   */
  function SpokeBase(stacks: nat, s: nat): nat
  {
    if s == 0 then 1 else SpokeBase(stacks, s - 1) + stacks
  }

  /** Position in the vertex buffer of stack `k` on spoke `s`. */
  function VertexIndex(stacks: nat, s: nat, k: nat): nat
  {
    SpokeBase(stacks, s) + k
  }

  /** The vertex buffer lists the spokes' vertices row-major after the centre. */
  lemma {:induction false} VertexIndexFlat(stacks: nat, s: nat, k: nat)
    ensures VertexIndex(stacks, s, k) == 1 + FlatIndex(stacks, s, k)
  {
    if s > 0 {
      VertexIndexFlat(stacks, s - 1, k);
      assert (s - 1) * stacks + stacks == s * stacks;
    }
  }

  function VertexCount(slices: nat, stacks: nat): nat
  {
    1 + slices * stacks
  }

  /**
   * How the index generator seeds the index of the spoke after the first: as the code
   * does it (always the second spoke, which does not exist when there is one slice), or
   * wrapped around the number of slices like every later step.
   */
  datatype Variant = AsWritten | Corrected

  /**
   * Index of the innermost vertex of the spoke that follows spoke `s`: the next spoke,
   * or the first one again after the last spoke, except where the code's seed points
   * one spoke further.
   */
  function NextSpoke(variant: Variant, slices: Positive, stacks: Positive, s: nat): nat
  {
    if s + 1 < slices then SpokeBase(stacks, s + 1)
    else if variant == AsWritten && s == 0 then SpokeBase(stacks, 1)
    else SpokeBase(stacks, 0)
  }

  /**
   * The two triangles of stacks 1 to n of one slice, innermost first: for stack j, the
   * quad between stacks j - 1 and j of this spoke (from `inner`) and the next one (from
   * `next`), split along the diagonal from the next spoke's vertex j - 1 to this spoke's
   * vertex j. Each triangle is three consecutive indices.
   */
  function QuadIndices(inner: nat, next: nat, n: nat): (r: seq<int>)
    ensures |r| == 6 * n
  {
    if n == 0 then []
    else
      QuadIndices(inner, next, n - 1)
      + [inner + n - 1, inner + n, next + n - 1]
      + [next + n - 1, inner + n, next + n]
  }

  /** The triangles of one slice: the fan triangle at the centre, then the quads outwards. */
  function SliceIndices(inner: nat, next: nat, stacks: Positive): (r: seq<int>)
    ensures |r| == 3 * (2 * stacks - 1)
    ensures r[0] == 0 && r[1] == inner && r[2] == next
  {
    [0, inner, next] + QuadIndices(inner, next, stacks - 1)
  }

  /** The index buffer of the first n slices. */
  function IndexBuffer(variant: Variant, slices: Positive, stacks: Positive, n: nat): seq<int>
  {
    if n == 0 then []
    else
      IndexBuffer(variant, slices, stacks, n - 1)
      + SliceIndices(SpokeBase(stacks, n - 1), NextSpoke(variant, slices, stacks, n - 1), stacks)
  }

  /** One step of the generator, the wrap at the end of a slice included, moves to the next spoke. */
  lemma NextSpokeStep(variant: Variant, slices: Positive, stacks: Positive, s: nat)
    requires s + 1 < slices
    ensures 0 < slices * stacks
    ensures (NextSpoke(variant, slices, stacks, s) + stacks - 1) % (slices * stacks) + 1
            == NextSpoke(variant, slices, stacks, s + 1)
  {
    var reached := NextSpoke(variant, slices, stacks, s) + stacks - 1;
    VertexIndexFlat(stacks, s + 1, 0);
    VertexIndexFlat(stacks, s + 2, 0);
    assert reached == FlatIndex(stacks, s + 2, 0) by {
      assert (s + 1) * stacks + stacks == (s + 2) * stacks;
    }
    FlatIndexBelow(stacks, 0, 0, slices);
    if s + 2 < slices {
      FlatIndexBelow(stacks, s + 2, 0, slices);
      DivModUnique(reached, slices * stacks, 0, reached);
    } else {
      DivModUnique(reached, slices * stacks, 1, 0);
    }
  }

  /**
   * The inner pass of the generator over stacks 1 to stacks - 1 of one slice, starting
   * from the slice's innermost vertex and the next spoke's innermost vertex.
   */
  method PushQuads(indices0: seq<int>, inner: nat, next: nat, stacks: Positive)
    returns (indices: seq<int>, innerIndex: nat, nextInnerIndex: nat)
    ensures indices == indices0 + QuadIndices(inner, next, stacks - 1)
    ensures innerIndex == inner + stacks - 1 && nextInnerIndex == next + stacks - 1
  {
    indices := indices0;
    innerIndex := inner;
    nextInnerIndex := next;
    var outerIndex := innerIndex + 1;
    var nextOuterIndex := nextInnerIndex + 1;
    var stack := 1;
    while stack < stacks
      invariant 1 <= stack <= stacks
      invariant innerIndex == inner + stack - 1 && outerIndex == innerIndex + 1
      invariant nextInnerIndex == next + stack - 1 && nextOuterIndex == nextInnerIndex + 1
      invariant indices == indices0 + QuadIndices(inner, next, stack - 1)
    {
      indices := indices + [innerIndex, outerIndex, nextInnerIndex];
      indices := indices + [nextInnerIndex, outerIndex, nextOuterIndex];
      innerIndex := outerIndex;
      outerIndex := outerIndex + 1;
      nextInnerIndex := nextOuterIndex;
      nextOuterIndex := nextOuterIndex + 1;
      stack := stack + 1;
    }
  }

  /**
   * The end-of-slice step of the generator: from the next spoke's outermost vertex, the
   * following spoke's innermost vertex, wrapping modulo the number of spoke vertices.
   */
  method WrapNextSpoke(variant: Variant, slices: Positive, stacks: Positive, slice: nat, reached: int)
    returns (next: int)
    requires reached == NextSpoke(variant, slices, stacks, slice) + stacks - 1
    ensures slice + 1 < slices ==> next == NextSpoke(variant, slices, stacks, slice + 1)
  {
    MulMonotone(1, slices, stacks);
    var maxIndex := slices * stacks;
    next := (reached % maxIndex) + 1;
    if slice + 1 < slices {
      NextSpokeStep(variant, slices, stacks, slice);
    }
  }

  /**
   * The index generator of the polygon primitive, written as the code writes it: one
   * pass over the slices, an inner pass over the stacks, and the next-spoke index wrapped
   * at the end of each slice.
   */
  method Indices(variant: Variant, slices: Positive, stacks: Positive) returns (indices: seq<int>)
    ensures indices == IndexBuffer(variant, slices, stacks, slices)
  {
    indices := [];
    var innerIndex := 1;
    var nextInnerIndex := if variant == AsWritten then innerIndex + stacks else innerIndex + (1 % slices) * stacks;
    var slice := 0;
    while slice < slices
      invariant slice <= slices
      invariant innerIndex == SpokeBase(stacks, slice)
      invariant slice < slices ==> nextInnerIndex == NextSpoke(variant, slices, stacks, slice)
      invariant indices == IndexBuffer(variant, slices, stacks, slice)
    {
      ghost var before := indices;
      ghost var slicePart := SliceIndices(innerIndex, nextInnerIndex, stacks);
      indices := indices + [0, innerIndex, nextInnerIndex];
      indices, innerIndex, nextInnerIndex := PushQuads(indices, innerIndex, nextInnerIndex, stacks);
      assert indices == before + slicePart;
      innerIndex := innerIndex + 1;
      nextInnerIndex := WrapNextSpoke(variant, slices, stacks, slice, nextInnerIndex);
      slice := slice + 1;
    }
  }

  lemma {:induction false} IndexBufferLength(variant: Variant, slices: Positive, stacks: Positive, n: nat)
    ensures |IndexBuffer(variant, slices, stacks, n)| == n * (3 * (2 * stacks - 1))
  {
    if n > 0 {
      IndexBufferLength(variant, slices, stacks, n - 1);
      assert (n - 1) * (3 * (2 * stacks - 1)) + 3 * (2 * stacks - 1) == n * (3 * (2 * stacks - 1));
    }
  }

  /** Each slice emits 2 * stacks - 1 triangles, three indices each. */
  lemma IndexCount(variant: Variant, slices: Positive, stacks: Positive)
    ensures |IndexBuffer(variant, slices, stacks, slices)| == 3 * slices * (2 * stacks - 1)
  {
    IndexBufferLength(variant, slices, stacks, slices);
    var perSlice := 2 * stacks - 1;
    assert slices * (3 * perSlice) == 3 * slices * perSlice;
  }

  /** Later slices only append: the buffer of the first m slices is a prefix of that of n. */
  lemma {:induction false} IndexBufferPrefix(variant: Variant, slices: Positive, stacks: Positive, m: nat, n: nat)
    requires m <= n
    ensures IndexBuffer(variant, slices, stacks, m) <= IndexBuffer(variant, slices, stacks, n)
    decreases n - m
  {
    if m < n {
      IndexBufferPrefix(variant, slices, stacks, m, n - 1);
    }
  }

  /**
   * The first triangle of slice s is its fan triangle: the centre, the innermost vertex
   * of spoke s and the innermost vertex of spoke (s + 1) mod slices; the last spoke
   * closes the fan onto the first one. The code's seed gives the same triangles as soon
   * as there are two slices.
   */
  lemma FanTriangle(variant: Variant, slices: Positive, stacks: Positive, s: nat)
    requires s < slices
    requires variant == Corrected || 2 <= slices
    ensures var buffer := IndexBuffer(variant, slices, stacks, slices);
            var at := s * (3 * (2 * stacks - 1));
            at + 2 < |buffer|
            && buffer[at] == 0
            && buffer[at + 1] == 1 + s * stacks
            && buffer[at + 2] == 1 + ((s + 1) % slices) * stacks
  {
    FanStart(variant, slices, stacks, s);
    VertexIndexFlat(stacks, s, 0);
    NextSpokeWraps(variant, slices, stacks, s);
  }

  /** Slice s's fan triangle sits at s times the slice's index count. */
  lemma FanStart(variant: Variant, slices: Positive, stacks: Positive, s: nat)
    requires s < slices
    ensures var buffer := IndexBuffer(variant, slices, stacks, slices);
            var at := s * (3 * (2 * stacks - 1));
            at + 2 < |buffer|
            && buffer[at] == 0
            && buffer[at + 1] == SpokeBase(stacks, s)
            && buffer[at + 2] == NextSpoke(variant, slices, stacks, s)
  {
    var front := IndexBuffer(variant, slices, stacks, s);
    var fan := [0, SpokeBase(stacks, s), NextSpoke(variant, slices, stacks, s)];
    var at := s * (3 * (2 * stacks - 1));
    assert |front| == at by {
      IndexBufferLength(variant, slices, stacks, s);
    }
    FanAt(variant, slices, stacks, s, slices);
    assert (front + fan)[at] == fan[0] && (front + fan)[at + 1] == fan[1] && (front + fan)[at + 2] == fan[2];
  }

  /**
   * Slice s starts, right after the earlier slices, with its fan triangle, and later
   * slices keep it there.
   */
  lemma {:induction false} FanAt(variant: Variant, slices: Positive, stacks: Positive, s: nat, n: nat)
    requires s < n
    ensures IndexBuffer(variant, slices, stacks, s) + [0, SpokeBase(stacks, s), NextSpoke(variant, slices, stacks, s)]
            <= IndexBuffer(variant, slices, stacks, n)
    decreases n
  {
    if n == s + 1 {
      var slice := SliceIndices(SpokeBase(stacks, s), NextSpoke(variant, slices, stacks, s), stacks);
      assert IndexBuffer(variant, slices, stacks, n) == IndexBuffer(variant, slices, stacks, s) + slice;
      assert slice[..3] == [0, SpokeBase(stacks, s), NextSpoke(variant, slices, stacks, s)];
    } else {
      FanAt(variant, slices, stacks, s, n - 1);
      PrefixExtend(IndexBuffer(variant, slices, stacks, s) + [0, SpokeBase(stacks, s), NextSpoke(variant, slices, stacks, s)],
                   IndexBuffer(variant, slices, stacks, n - 1),
                   SliceIndices(SpokeBase(stacks, n - 1), NextSpoke(variant, slices, stacks, n - 1), stacks));
    }
  }

  /** Appending keeps a prefix a prefix. */
  lemma PrefixExtend(a: seq<int>, b: seq<int>, c: seq<int>)
    requires a <= b
    ensures a <= b + c
  {
  }

  /** The spoke after s is spoke (s + 1) mod slices, once the seed is right. */
  lemma NextSpokeWraps(variant: Variant, slices: Positive, stacks: Positive, s: nat)
    requires s < slices
    requires variant == Corrected || 2 <= slices
    ensures NextSpoke(variant, slices, stacks, s) == 1 + ((s + 1) % slices) * stacks
  {
    var t := (s + 1) % slices;
    if s + 1 < slices {
      DivModUnique(s + 1, slices, 0, s + 1);
    } else {
      DivModUnique(s + 1, slices, 1, 0);
    }
    VertexIndexFlat(stacks, t, 0);
  }

  /** Every element of `xs` is a valid index into a buffer of `count` vertices. */
  ghost predicate AllBelow(xs: seq<int>, count: nat)
  {
    forall i :: 0 <= i < |xs| ==> 0 <= xs[i] < count
  }

  lemma AllBelowAppend(a: seq<int>, b: seq<int>, count: nat)
    requires AllBelow(a, count) && AllBelow(b, count)
    ensures AllBelow(a + b, count)
  {
  }

  lemma {:induction false} QuadIndicesBelow(inner: nat, next: nat, n: nat, count: nat)
    requires 1 <= inner && 1 <= next && inner + n < count && next + n < count
    ensures AllBelow(QuadIndices(inner, next, n), count)
  {
    if n > 0 {
      QuadIndicesBelow(inner, next, n - 1, count);
      AllBelowAppend(QuadIndices(inner, next, n - 1), [inner + n - 1, inner + n, next + n - 1], count);
      AllBelowAppend(QuadIndices(inner, next, n - 1) + [inner + n - 1, inner + n, next + n - 1],
                     [next + n - 1, inner + n, next + n], count);
    }
  }

  /** The last vertex of every spoke is a vertex of the buffer. */
  lemma SpokeEndBelow(slices: Positive, stacks: Positive, s: nat)
    requires s < slices
    ensures 1 <= SpokeBase(stacks, s) && SpokeBase(stacks, s) + stacks - 1 < VertexCount(slices, stacks)
  {
    VertexIndexFlat(stacks, s, 0);
    FlatIndexBelow(stacks, s, stacks - 1, slices);
  }

  lemma {:induction false} IndexBufferBelow(variant: Variant, slices: Positive, stacks: Positive, n: nat)
    requires n <= slices
    requires variant == Corrected || 2 <= slices
    ensures AllBelow(IndexBuffer(variant, slices, stacks, n), VertexCount(slices, stacks))
  {
    if n > 0 {
      var count := VertexCount(slices, stacks);
      var s := n - 1;
      var inner := SpokeBase(stacks, s);
      var next := NextSpoke(variant, slices, stacks, s);
      IndexBufferBelow(variant, slices, stacks, n - 1);
      SpokeEndBelow(slices, stacks, s);
      if s + 1 < slices {
        SpokeEndBelow(slices, stacks, s + 1);
      } else {
        SpokeEndBelow(slices, stacks, 0);
      }
      QuadIndicesBelow(inner, next, stacks - 1, count);
      AllBelowAppend([0, inner, next], QuadIndices(inner, next, stacks - 1), count);
      AllBelowAppend(IndexBuffer(variant, slices, stacks, n - 1), SliceIndices(inner, next, stacks), count);
    }
  }

  /** With the wrapped seed every index names one of the 1 + slices * stacks vertices. */
  lemma IndicesInRange(slices: Positive, stacks: Positive)
    ensures var buffer := IndexBuffer(Corrected, slices, stacks, slices);
            forall i :: 0 <= i < |buffer| ==> 0 <= buffer[i] < 1 + slices * stacks
  {
    IndexBufferBelow(Corrected, slices, stacks, slices);
  }

  /** The code's seed is harmless once there are two slices: both seeds give the same buffer. */
  lemma {:induction false} SeedsAgree(slices: Positive, stacks: Positive, n: nat)
    requires 2 <= slices
    ensures IndexBuffer(AsWritten, slices, stacks, n) == IndexBuffer(Corrected, slices, stacks, n)
  {
    if n > 0 {
      SeedsAgree(slices, stacks, n - 1);
    }
  }

  /** As written, with at least two slices every index names one of the vertices. */
  lemma IndicesInRangeAsWritten(slices: Positive, stacks: Positive)
    requires 2 <= slices
    ensures var buffer := IndexBuffer(AsWritten, slices, stacks, slices);
            forall i :: 0 <= i < |buffer| ==> 0 <= buffer[i] < 1 + slices * stacks
  {
    IndexBufferBelow(AsWritten, slices, stacks, slices);
  }

  /**
   * As written, a polygon with a single slice gets the fan triangle (0, 1, 1 + stacks),
   * and vertex 1 + stacks does not exist: there are only 1 + stacks vertices.
   */
  lemma SingleSliceOutOfRange(stacks: Positive)
    ensures var buffer := IndexBuffer(AsWritten, 1, stacks, 1);
            |buffer| >= 3 && buffer[..3] == [0, 1, 1 + stacks]
            && buffer[2] == VertexCount(1, stacks)
  {
  }

  /** The angle of spoke s: the spokes split the full turn into `slices` equal parts. */
  function SpokeAngle(num: Numerics, slices: Positive, s: nat): real
  {
    s as real * (2.0 * num.pi / slices as real)
  }

  /** The point k + 1 steps of (dx, dy) out from the centre, in the z = 0 plane. */
  function StepPoint(k: nat, dx: real, dy: real): Vec3
  {
    Vec3((k + 1) as real * dx, (k + 1) as real * dy, 0.0)
  }

  /**
   * Vertex `k` of spoke `s`: k + 1 steps of radius / stacks along the spoke's direction,
   * which is +y turned by the spoke's angle towards -x, in the z = 0 plane.
   */
  function SpokePoint(num: Numerics, radius: real, slices: Positive, stacks: Positive, s: nat, k: nat): Vec3
  {
    var dRadius := radius / stacks as real;
    var alpha := SpokeAngle(num, slices, s);
    StepPoint(k, -num.sin(alpha) * dRadius, num.cos(alpha) * dRadius)
  }

  /** Advancing the angle by 2π / slices moves to the next spoke. */
  lemma SpokeAngleStep(num: Numerics, slices: Positive, s: nat)
    ensures SpokeAngle(num, slices, s) + 2.0 * num.pi / slices as real == SpokeAngle(num, slices, s + 1)
  {
    var step := 2.0 * num.pi / slices as real;
    assert (s + 1) as real * step == s as real * step + step;
  }

  function SpokeCell(num: Numerics, radius: real, slices: Positive, stacks: Positive): (nat, nat) -> Vec3
  {
    (s: nat, k: nat) => SpokePoint(num, radius, slices, stacks, s, k)
  }

  /** The vertex buffer: the centre, then every spoke's vertices from the centre outwards. */
  function Positions(num: Numerics, radius: real, slices: Positive, stacks: Positive): seq<Vec3>
  {
    [Vec3(0.0, 0.0, 0.0)] + Blocks(slices, stacks, SpokeCell(num, radius, slices, stacks))
  }

  /** The inner position pass: walking out along one spoke, one step (dx, dy) per stack. */
  method WalkSpoke(positions0: seq<Vec3>, dx: real, dy: real, stacks: Positive) returns (positions: seq<Vec3>)
    ensures |positions| == |positions0| + stacks && positions[..|positions0|] == positions0
    ensures forall i :: |positions0| <= i < |positions| ==>
              positions[i] == StepPoint(i - |positions0|, dx, dy)
  {
    positions := positions0;
    var x := 0.0;
    var y := 0.0;
    var stack := 0;
    while stack < stacks
      invariant stack <= stacks
      invariant x == stack as real * dx && y == stack as real * dy
      invariant |positions| == |positions0| + stack && positions[..|positions0|] == positions0
      invariant forall i :: |positions0| <= i < |positions| ==>
                  positions[i] == StepPoint(i - |positions0|, dx, dy)
    {
      x := x + dx;
      y := y + dy;
      assert Vec3(x, y, 0.0) == StepPoint(stack, dx, dy);
      positions := positions + [Vec3(x, y, 0.0)];
      stack := stack + 1;
    }
  }

  /**
   * The points a spoke walk appends are that spoke's vertices: after the walk along
   * spoke s the buffer holds the centre and the first s + 1 spokes.
   */
  lemma SpokeWalked(num: Numerics, radius: real, slices: Positive, stacks: Positive, s: nat,
                    dx: real, dy: real, before: seq<Vec3>, after: seq<Vec3>)
    requires dx == -num.sin(SpokeAngle(num, slices, s)) * (radius / stacks as real)
    requires dy == num.cos(SpokeAngle(num, slices, s)) * (radius / stacks as real)
    requires before == [Vec3(0.0, 0.0, 0.0)] + Blocks(s, stacks, SpokeCell(num, radius, slices, stacks))
    requires |after| == |before| + stacks && after[..|before|] == before
    requires forall i :: |before| <= i < |after| ==> after[i] == StepPoint(i - |before|, dx, dy)
    ensures after == [Vec3(0.0, 0.0, 0.0)] + Blocks(s + 1, stacks, SpokeCell(num, radius, slices, stacks))
  {
    var cell := SpokeCell(num, radius, slices, stacks);
    var spoke := seq(stacks, (k: int) requires 0 <= k < stacks => cell(s, k));
    forall k | 0 <= k < stacks
      ensures after[|before| + k] == spoke[k]
    {
    }
    assert after[|before|..] == spoke;
    assert after == before + after[|before|..];
    assert Blocks(s + 1, stacks, cell) == Blocks(s, stacks, cell) + spoke;
  }

  /**
   * The position pass of the polygon builder: the angle advances by 2π / slices per
   * slice and the point walks out by one step per stack.
   */
  method BuildPositions(num: Numerics, radius: real, slices: Positive, stacks: Positive)
    returns (positions: seq<Vec3>)
    ensures positions == Positions(num, radius, slices, stacks)
  {
    ghost var cell := SpokeCell(num, radius, slices, stacks);
    var twoPi := 2.0 * num.pi;
    var alpha := 0.0;
    var dAlpha := twoPi / slices as real;
    var dRadius := radius / stacks as real;
    positions := [Vec3(0.0, 0.0, 0.0)];
    var slice := 0;
    while slice < slices
      invariant slice <= slices
      invariant alpha == SpokeAngle(num, slices, slice)
      invariant positions == [Vec3(0.0, 0.0, 0.0)] + Blocks(slice, stacks, cell)
    {
      ghost var before := positions;
      var dx := -num.sin(alpha) * dRadius;
      var dy := num.cos(alpha) * dRadius;
      SpokeAngleStep(num, slices, slice);
      alpha := alpha + dAlpha;
      positions := WalkSpoke(positions, dx, dy, stacks);
      SpokeWalked(num, radius, slices, stacks, slice, dx, dy, before, positions);
      slice := slice + 1;
    }
  }

  /** Stack k's colour: k + 1 of `stacks` equal steps from the centre colour towards the outer one. */
  function StackColor(colorC: Color, colorP: Color, stacks: Positive, k: nat): Color
  {
    var n := stacks as real;
    var t := (k + 1) as real;
    Color(
      colorC.r + t * ((colorP.r - colorC.r) / n),
      colorC.g + t * ((colorP.g - colorC.g) / n),
      colorC.b + t * ((colorP.b - colorC.b) / n),
      colorC.a + t * ((colorP.a - colorC.a) / n))
  }

  function StackColorCell(colorC: Color, colorP: Color, stacks: Positive): (nat, nat) -> Color
  {
    (s: nat, k: nat) => StackColor(colorC, colorP, stacks, k)
  }

  /** The colour buffer: the centre colour, then the same stack colours on every spoke. */
  function Colors(colorC: Color, colorP: Color, slices: Positive, stacks: Positive): seq<Color>
  {
    [colorC] + Blocks(slices, stacks, StackColorCell(colorC, colorP, stacks))
  }

  /** The per-stack colour pass: each stack adds one step to the running colour. */
  method BuildStackColors(colorC: Color, colorP: Color, stacks: Positive) returns (stackColors: seq<Color>)
    ensures |stackColors| == stacks
    ensures forall k :: 0 <= k < stacks ==> stackColors[k] == StackColor(colorC, colorP, stacks, k)
  {
    var dr := (colorP.r - colorC.r) / stacks as real;
    var dg := (colorP.g - colorC.g) / stacks as real;
    var db := (colorP.b - colorC.b) / stacks as real;
    var da := (colorP.a - colorC.a) / stacks as real;
    var r, g, b, a := colorC.r, colorC.g, colorC.b, colorC.a;
    stackColors := [];
    var stack := 0;
    while stack < stacks
      invariant stack <= stacks
      invariant r == colorC.r + stack as real * dr && g == colorC.g + stack as real * dg
      invariant b == colorC.b + stack as real * db && a == colorC.a + stack as real * da
      invariant |stackColors| == stack
      invariant forall k :: 0 <= k < stack ==> stackColors[k] == StackColor(colorC, colorP, stacks, k)
    {
      r := r + dr;
      g := g + dg;
      b := b + db;
      a := a + da;
      stackColors := stackColors + [Color(r, g, b, a)];
      stack := stack + 1;
    }
  }

  /** The colour pass: the centre colour, then one copy of the stack colours per slice. */
  method BuildColors(colorC: Color, colorP: Color, slices: Positive, stacks: Positive) returns (colors: seq<Color>)
    ensures colors == Colors(colorC, colorP, slices, stacks)
  {
    ghost var cell := StackColorCell(colorC, colorP, stacks);
    var stackColors := BuildStackColors(colorC, colorP, stacks);
    assert stackColors == seq(stacks, (k: int) requires 0 <= k < stacks => cell(0, k));
    colors := [colorC];
    var slice := 0;
    while slice < slices
      invariant slice <= slices
      invariant colors == [colorC] + Blocks(slice, stacks, cell)
    {
      assert stackColors == seq(stacks, (k: int) requires 0 <= k < stacks => cell(slice, k));
      colors := colors + stackColors;
      slice := slice + 1;
    }
  }

  /** The outermost stack has exactly the outer colour. */
  lemma OuterStackColor(colorC: Color, colorP: Color, stacks: Positive)
    ensures StackColor(colorC, colorP, stacks, stacks - 1) == colorP
  {
    var n := stacks as real;
    assert n * ((colorP.r - colorC.r) / n) == colorP.r - colorC.r;
    assert n * ((colorP.g - colorC.g) / n) == colorP.g - colorC.g;
    assert n * ((colorP.b - colorC.b) / n) == colorP.b - colorC.b;
    assert n * ((colorP.a - colorC.a) / n) == colorP.a - colorC.a;
  }

  /**
   * The vertex and colour buffers line up: both hold 1 + slices * stacks entries, the
   * centre first, and vertex k of spoke s sits at 1 + s * stacks + k in both, with the
   * colour of stack k.
   */
  lemma BufferLayout(num: Numerics, radius: real, colorC: Color, colorP: Color, slices: Positive, stacks: Positive)
    ensures |Positions(num, radius, slices, stacks)| == VertexCount(slices, stacks)
    ensures |Colors(colorC, colorP, slices, stacks)| == VertexCount(slices, stacks)
    ensures Positions(num, radius, slices, stacks)[0] == Vec3(0.0, 0.0, 0.0)
    ensures Colors(colorC, colorP, slices, stacks)[0] == colorC
    ensures forall s, k :: 0 <= s < slices && 0 <= k < stacks ==>
              1 + FlatIndex(stacks, s, k) < VertexCount(slices, stacks)
              && Positions(num, radius, slices, stacks)[1 + FlatIndex(stacks, s, k)] == SpokePoint(num, radius, slices, stacks, s, k)
              && Colors(colorC, colorP, slices, stacks)[1 + FlatIndex(stacks, s, k)] == StackColor(colorC, colorP, stacks, k)
  {
    forall s, k | 0 <= s < slices && 0 <= k < stacks
      ensures 1 + FlatIndex(stacks, s, k) < VertexCount(slices, stacks)
      ensures Positions(num, radius, slices, stacks)[1 + FlatIndex(stacks, s, k)] == SpokePoint(num, radius, slices, stacks, s, k)
      ensures Colors(colorC, colorP, slices, stacks)[1 + FlatIndex(stacks, s, k)] == StackColor(colorC, colorP, stacks, k)
    {
      BlocksAt(slices, stacks, SpokeCell(num, radius, slices, stacks), s, k);
      BlocksAt(slices, stacks, StackColorCell(colorC, colorP, stacks), s, k);
    }
  }

  /** The three buffers of a polygon primitive. */
  datatype Buffers = Buffers(positions: seq<Vec3>, indices: seq<int>, colors: seq<Color>)

  /**
   * The polygon's buffers, with the index buffer seeded as the code seeds it (`AsWritten`)
   * or with the seed wrapped for a single slice (`Corrected`).
   */
  function PolygonBuffers(num: Numerics, polygon: PolygonSpec, variant: Variant): (b: Buffers)
    ensures |b.positions| == |b.colors| == VertexCount(polygon.slices, polygon.stacks)
    ensures |b.indices| == 3 * polygon.slices * (2 * polygon.stacks - 1)
    ensures b.positions[0] == Vec3(0.0, 0.0, 0.0) && b.colors[0] == polygon.colorC
  {
    BufferLayout(num, polygon.radius, polygon.colorC, polygon.colorP, polygon.slices, polygon.stacks);
    IndexCount(variant, polygon.slices, polygon.stacks);
    Buffers(
      Positions(num, polygon.radius, polygon.slices, polygon.stacks),
      IndexBuffer(variant, polygon.slices, polygon.stacks, polygon.slices),
      Colors(polygon.colorC, polygon.colorP, polygon.slices, polygon.stacks))
  }

  /**
   * The polygon builder: the position, index and colour passes in turn. Every index names
   * a vertex, except with the code's seed and a single slice, whose fan triangle names the
   * vertex one past the last.
   */
  method BuildPolygon(num: Numerics, polygon: PolygonSpec, variant: Variant) returns (buffers: Buffers)
    ensures buffers == PolygonBuffers(num, polygon, variant)
    ensures |buffers.positions| == |buffers.colors| == VertexCount(polygon.slices, polygon.stacks)
    ensures |buffers.indices| == 3 * polygon.slices * (2 * polygon.stacks - 1)
    ensures variant == Corrected || 2 <= polygon.slices ==>
              forall i :: 0 <= i < |buffers.indices| ==> 0 <= buffers.indices[i] < |buffers.positions|
    ensures variant == AsWritten && polygon.slices == 1 ==> buffers.indices[2] == |buffers.positions|
  {
    var positions := BuildPositions(num, polygon.radius, polygon.slices, polygon.stacks);
    var indices := Indices(variant, polygon.slices, polygon.stacks);
    var colors := BuildColors(polygon.colorC, polygon.colorP, polygon.slices, polygon.stacks);
    buffers := Buffers(positions, indices, colors);
    BufferLayout(num, polygon.radius, polygon.colorC, polygon.colorP, polygon.slices, polygon.stacks);
    IndexCount(variant, polygon.slices, polygon.stacks);
    if variant == Corrected {
      IndicesInRange(polygon.slices, polygon.stacks);
    } else if 2 <= polygon.slices {
      IndicesInRangeAsWritten(polygon.slices, polygon.stacks);
    } else {
      SingleSliceOutOfRange(polygon.stacks);
    }
  }
}
