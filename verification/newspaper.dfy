/**
 * The newspaper factories and the practical-class NURBS flower pot. A page is a
 * NURBS surface over a 4 x 2 control grid whose second row is lifted by the
 * page's depth; a negative x scale reverses the rows and a negative y scale
 * reverses every row. A newspaper is a left page built with the x scale negated
 * and a right page built with it as given.
 */
module Newspaper {
  import opened Wrappers
  import opened Floats
  import opened ControlGrids

  const PageOrderU: nat := 3
  const PageOrderV: nat := 1
  /** The degree the practical-class flower pot passes with the same four-row grid. */
  const PotOrderU: nat := 2
  const Samples: nat := 24

  /** A page's width, height and depth from its scales: `scaleX`, `scaleY * sqrt(2)`, `0.2 * scaleZ`. */
  function PageDims(num: Numerics, scaleX: real, scaleY: real, scaleZ: real): Dims
  {
    Dims(scaleX, scaleY * num.sqrt(2.0), 0.2 * scaleZ)
  }

  /** The control grid as first written, before either reversal. */
  function FlatGrid(d: Dims): (g: Grid)
    ensures Rectangular(g, 4, 2)
  {
    [ [Point(-0.5 * d.width, -0.5 * d.height, 0.0), Point(-0.5 * d.width, 0.5 * d.height, 0.0)],
      [Point(-0.1 * d.width, -0.5 * d.height, d.depth), Point(-0.1 * d.width, 0.5 * d.height, d.depth)],
      [Point(0.1 * d.width, -0.5 * d.height, 0.0), Point(0.1 * d.width, 0.5 * d.height, 0.0)],
      [Point(0.5 * d.width, -0.5 * d.height, 0.0), Point(0.5 * d.width, 0.5 * d.height, 0.0)] ]
  }

  /** The x offset of row `i` on a page of width `w`: -0.5, -0.1, 0.1 and 0.5 of it. */
  function XOffset(i: nat, w: real): real
    requires i < 4
  {
    if i == 0 then -0.5 * w else if i == 1 then -0.1 * w else if i == 2 then 0.1 * w else 0.5 * w
  }

  /** The y offset of column `j` on a page of height `h`: -0.5 and 0.5 of it. */
  function YOffset(j: nat, h: real): real
    requires j < 2
  {
    if j == 0 then -0.5 * h else 0.5 * h
  }

  /** Before any reversal, row `i` sits at its x fraction of the width, and only row 1 leaves the plane, lifted by the depth. */
  lemma FlatGridAt(d: Dims, i: nat, j: nat)
    requires i < 4 && j < 2
    ensures FlatGrid(d)[i][j] == Point(XOffset(i, d.width), YOffset(j, d.height), if i == 1 then d.depth else 0.0)
  {
  }

  /** The grid after `controlPoints.reverse()` when `scaleX < 0` and `row.reverse()` on each row when `scaleY < 0`. */
  function PageGrid(d: Dims, scaleX: real, scaleY: real): (g: Grid)
    ensures Rectangular(g, 4, 2)
  {
    var rows := if scaleX < 0.0 then Reverse(FlatGrid(d)) else FlatGrid(d);
    if scaleY < 0.0 then ReverseEachRow(rows) else rows
  }

  /** Point (i, j) of the page grid is the unreversed point with i mirrored when `scaleX < 0` and j mirrored when `scaleY < 0`. */
  lemma PageGridReversals(d: Dims, scaleX: real, scaleY: real, i: nat, j: nat)
    requires i < 4 && j < 2
    ensures PageGrid(d, scaleX, scaleY)[i][j] ==
            FlatGrid(d)[if scaleX < 0.0 then 3 - i else i][if scaleY < 0.0 then 1 - j else j]
  {
  }

  /** After the reversals, row `i` sits at its x fraction of the page's absolute width. */
  lemma PageGridX(d: Dims, scaleX: real, scaleY: real, i: nat, j: nat)
    requires d.width == scaleX
    requires i < 4 && j < 2
    ensures PageGrid(d, scaleX, scaleY)[i][j].x == XOffset(i, Abs(scaleX))
  {
    PageGridXs(d, scaleX, scaleY, i, j);
    MirroredXOffset(scaleX, i);
  }

  /** After the reversals, row `i` takes the x of row `i`, or of its mirror when `scaleX < 0`. */
  lemma PageGridXs(d: Dims, scaleX: real, scaleY: real, i: nat, j: nat)
    requires i < 4 && j < 2
    ensures PageGrid(d, scaleX, scaleY)[i][j].x == XOffset(if scaleX < 0.0 then 3 - i else i, d.width)
  {
    PageGridReversals(d, scaleX, scaleY, i, j);
    FlatGridAt(d, if scaleX < 0.0 then 3 - i else i, if scaleY < 0.0 then 1 - j else j);
  }

  /** Mirroring the row exactly when the width is negative places it at its fraction of the absolute width. */
  lemma MirroredXOffset(w: real, i: nat)
    requires i < 4
    ensures XOffset(if w < 0.0 then 3 - i else i, w) == XOffset(i, Abs(w))
  {
    if w < 0.0 {
      assert Abs(w) == -w;
    }
  }

  /** After the reversals, column `j` takes the y of column `j`, or of its mirror when `scaleY < 0`. */
  lemma PageGridYs(d: Dims, scaleX: real, scaleY: real, i: nat, j: nat)
    requires i < 4 && j < 2
    ensures PageGrid(d, scaleX, scaleY)[i][j].y == YOffset(if scaleY < 0.0 then 1 - j else j, d.height)
  {
    PageGridReversals(d, scaleX, scaleY, i, j);
    FlatGridAt(d, if scaleX < 0.0 then 3 - i else i, if scaleY < 0.0 then 1 - j else j);
  }

  /** After the reversals, the lifted row is row 1, or row 2 when `scaleX < 0`. */
  lemma PageGridZ(d: Dims, scaleX: real, scaleY: real, i: nat, j: nat)
    requires i < 4 && j < 2
    ensures scaleX < 0.0 ==> PageGrid(d, scaleX, scaleY)[i][j].z == if i == 2 then d.depth else 0.0
    ensures scaleX >= 0.0 ==> PageGrid(d, scaleX, scaleY)[i][j].z == if i == 1 then d.depth else 0.0
  {
    PageGridReversals(d, scaleX, scaleY, i, j);
    FlatGridAt(d, if scaleX < 0.0 then 3 - i else i, if scaleY < 0.0 then 1 - j else j);
  }

  /** After the reversals, column `j` sits at its y fraction of the page's absolute height. */
  lemma PageGridY(d: Dims, scaleX: real, scaleY: real, i: nat, j: nat)
    requires (d.height < 0.0) == (scaleY < 0.0)
    requires i < 4 && j < 2
    ensures PageGrid(d, scaleX, scaleY)[i][j].y == YOffset(j, Abs(d.height))
  {
    PageGridYs(d, scaleX, scaleY, i, j);
    MirroredYOffset(d.height, scaleY < 0.0, j);
  }

  /** Mirroring the column exactly when the height is negative places it at its fraction of the absolute height. */
  lemma MirroredYOffset(h: real, mirrored: bool, j: nat)
    requires j < 2 && mirrored == (h < 0.0)
    ensures YOffset(if mirrored then 1 - j else j, h) == YOffset(j, Abs(h))
  {
    if mirrored {
      assert Abs(h) == -h;
    }
  }

  /**
   * Whatever the signs of the scales, the reversals leave x non-decreasing down
   * the rows and y non-decreasing along each row (given sqrt(2) > 0).
   */
  lemma {:induction false} PageGridAscending(num: Numerics, scaleX: real, scaleY: real, scaleZ: real)
    requires num.sqrt(2.0) > 0.0
    ensures var g := PageGrid(PageDims(num, scaleX, scaleY, scaleZ), scaleX, scaleY);
            (forall i, k, j :: 0 <= i < k < 4 && 0 <= j < 2 ==> g[i][j].x <= g[k][j].x) &&
            (forall i :: 0 <= i < 4 ==> g[i][0].y <= g[i][1].y)
  {
    var d := PageDims(num, scaleX, scaleY, scaleZ);
    RowsAscend(d, scaleX, scaleY);
    HeightSign(num, scaleY);
    ColumnsAscend(d, scaleX, scaleY);
  }

  /** With the width equal to the x scale, x does not decrease down the rows. */
  lemma RowsAscend(d: Dims, scaleX: real, scaleY: real)
    requires d.width == scaleX
    ensures var g := PageGrid(d, scaleX, scaleY);
            forall i, k, j :: 0 <= i < k < 4 && 0 <= j < 2 ==> g[i][j].x <= g[k][j].x
  {
    var g: Grid := PageGrid(d, scaleX, scaleY);
    forall i, j | 0 <= i < 4 && 0 <= j < 2
      ensures g[i][j].x == XOffset(i, Abs(scaleX))
    {
      PageGridX(d, scaleX, scaleY, i, j);
    }
    OffsetsAscend(g, Abs(scaleX));
  }

  /** A 4 x 2 grid whose rows sit at their x offsets for a non-negative width ascends in x down the rows. */
  lemma OffsetsAscend(g: Grid, width: real)
    requires Rectangular(g, 4, 2) && width >= 0.0
    requires forall i, j :: 0 <= i < 4 && 0 <= j < 2 ==> g[i][j].x == XOffset(i, width)
    ensures forall i, k, j :: 0 <= i < k < 4 && 0 <= j < 2 ==> g[i][j].x <= g[k][j].x
  {
    forall i, k, j | 0 <= i < k < 4 && 0 <= j < 2
      ensures g[i][j].x <= g[k][j].x
    {
      assert XOffset(i, width) <= XOffset(k, width);
    }
  }

  /** With the height as negative as the y scale, y does not decrease along a row. */
  lemma ColumnsAscend(d: Dims, scaleX: real, scaleY: real)
    requires (d.height < 0.0) == (scaleY < 0.0)
    ensures var g := PageGrid(d, scaleX, scaleY);
            forall i :: 0 <= i < 4 ==> g[i][0].y <= g[i][1].y
  {
    var g: Grid := PageGrid(d, scaleX, scaleY);
    forall i | 0 <= i < 4
      ensures g[i][0].y <= g[i][1].y
    {
      PageGridY(d, scaleX, scaleY, i, 0);
      PageGridY(d, scaleX, scaleY, i, 1);
    }
  }

  /** The page height scaleY * sqrt(2) is negative exactly when scaleY is. */
  lemma HeightSign(num: Numerics, scaleY: real)
    requires num.sqrt(2.0) > 0.0
    ensures (scaleY * num.sqrt(2.0) < 0.0) == (scaleY < 0.0)
  {
    if scaleY < 0.0 {
      assert scaleY * num.sqrt(2.0) < 0.0;
    } else {
      assert scaleY * num.sqrt(2.0) >= 0.0;
    }
  }

  /** A page mesh: the surface-builder call, whether it casts shadows, its x position and its reported size. */
  datatype Page = Page(surface: SurfaceRequest, castShadow: bool, positionX: real, dims: Dims)

  /** `#buildPage` with the given angular degree (3 for the newspaper, 2 for the practical-class flower pot). */
  function BuildPage(num: Numerics, orderU: nat, scaleX: real, scaleY: real, scaleZ: real): (p: Page)
    ensures Rectangular(p.surface.points, 4, 2)
    ensures p.surface.degreeU == orderU && p.surface.degreeV == 1
    ensures p.surface.samplesU == 24 && p.surface.samplesV == 24
    ensures p.castShadow && p.positionX == 0.0
    ensures p.dims.width == scaleX && p.dims.depth == 0.2 * scaleZ
    ensures p.dims.height == scaleY * num.sqrt(2.0)
  {
    var d := PageDims(num, scaleX, scaleY, scaleZ);
    Page(SurfaceRequest(PageGrid(d, scaleX, scaleY), orderU, PageOrderV, Samples, Samples), true, 0.0, d)
  }

  /** The newspaper page's grid is exactly as long as its degrees require. */
  lemma NewspaperPageMatchesDegrees(num: Numerics, scaleX: real, scaleY: real, scaleZ: real)
    ensures MatchesDegrees(BuildPage(num, PageOrderU, scaleX, scaleY, scaleZ).surface)
  {
  }

  datatype Newspaper = Newspaper(left: Page, right: Page, dims: Dims)

  /**
   * `build` (first project) and `buildNewspaper` (practical class): scales default
   * to 1; the left page is built with the x scale negated, each page is moved by
   * half its own width, and the reported size is the sum of the pages' sizes.
   */
  function BuildNewspaper(num: Numerics, scaleX: Option<real>, scaleY: Option<real>, scaleZ: Option<real>): (r: Newspaper)
    ensures var sx := scaleX.GetOr(1.0);
            r.left.surface == BuildPage(num, PageOrderU, -sx, scaleY.GetOr(1.0), scaleZ.GetOr(1.0)).surface &&
            r.right.surface == BuildPage(num, PageOrderU, sx, scaleY.GetOr(1.0), scaleZ.GetOr(1.0)).surface &&
            r.left.positionX == -sx / 2.0 && r.right.positionX == sx / 2.0
    ensures r.dims.width == r.left.dims.width + r.right.dims.width
    ensures r.dims.height == r.left.dims.height + r.right.dims.height
    ensures r.dims.depth == r.left.dims.depth + r.right.dims.depth
  {
    var sx := scaleX.GetOr(1.0);
    var sy := scaleY.GetOr(1.0);
    var sz := scaleZ.GetOr(1.0);
    var left := BuildPage(num, PageOrderU, -sx, sy, sz);
    var left := left.(positionX := left.positionX + left.dims.width / 2.0);
    var right := BuildPage(num, PageOrderU, sx, sy, sz);
    var right := right.(positionX := right.positionX + right.dims.width / 2.0);
    Newspaper(left, right, Dims(left.dims.width + right.dims.width,
                                left.dims.height + right.dims.height,
                                left.dims.depth + right.dims.depth))
  }

  /** Because the left page's width is the negated x scale, the reported width is always 0. */
  lemma NewspaperWidthCancels(num: Numerics, scaleX: Option<real>, scaleY: Option<real>, scaleZ: Option<real>)
    ensures BuildNewspaper(num, scaleX, scaleY, scaleZ).dims.width == 0.0
    ensures BuildNewspaper(num, scaleX, scaleY, scaleZ).dims.depth == 0.4 * scaleZ.GetOr(1.0)
  {
  }

  /**
   * For a non-zero x scale the two pages have the same x and y at every grid
   * position (both ascend in x), and the left page's lifted row is the mirror of
   * the right page's: row i of one has the depth of row 3 - i of the other.
   */
  lemma {:induction false} PagesMirrorTheLift(num: Numerics, scaleX: Option<real>, scaleY: Option<real>, scaleZ: Option<real>, i: nat, j: nat)
    requires scaleX.GetOr(1.0) != 0.0
    requires i < 4 && j < 2
    ensures var n := BuildNewspaper(num, scaleX, scaleY, scaleZ);
            var l := n.left.surface.points;
            var r := n.right.surface.points;
            l[i][j].x == r[i][j].x && l[i][j].y == r[i][j].y && l[i][j].z == r[3 - i][j].z
  {
    var sx := scaleX.GetOr(1.0);
    var sy := scaleY.GetOr(1.0);
    var sz := scaleZ.GetOr(1.0);
    var dl := PageDims(num, -sx, sy, sz);
    var dr := PageDims(num, sx, sy, sz);
    var n := BuildNewspaper(num, scaleX, scaleY, scaleZ);
    assert n.left.surface.points == PageGrid(dl, -sx, sy);
    assert n.right.surface.points == PageGrid(dr, sx, sy);
    MirroredGrids(dl, dr, sx, sy, i, j);
  }

  /** Two page grids built with opposite non-zero x scales and otherwise equal sizes. */
  lemma MirroredGrids(dl: Dims, dr: Dims, sx: real, sy: real, i: nat, j: nat)
    requires sx != 0.0 && dl.width == -sx && dr.width == sx
    requires dl.height == dr.height && dl.depth == dr.depth
    requires i < 4 && j < 2
    ensures var l := PageGrid(dl, -sx, sy);
            var r := PageGrid(dr, sx, sy);
            l[i][j].x == r[i][j].x && l[i][j].y == r[i][j].y && l[i][j].z == r[3 - i][j].z
  {
    MirroredX(dl, dr, sx, sy, i, j);
    MirroredY(dl, dr, sx, sy, i, j);
    MirroredZ(dl, dr, sx, sy, i, j);
  }

  lemma MirroredX(dl: Dims, dr: Dims, sx: real, sy: real, i: nat, j: nat)
    requires dl.width == -sx && dr.width == sx
    requires i < 4 && j < 2
    ensures PageGrid(dl, -sx, sy)[i][j].x == PageGrid(dr, sx, sy)[i][j].x
  {
    PageGridX(dl, -sx, sy, i, j);
    PageGridX(dr, sx, sy, i, j);
    assert Abs(-sx) == Abs(sx);
  }

  lemma MirroredY(dl: Dims, dr: Dims, sx: real, sy: real, i: nat, j: nat)
    requires dl.height == dr.height
    requires i < 4 && j < 2
    ensures PageGrid(dl, -sx, sy)[i][j].y == PageGrid(dr, sx, sy)[i][j].y
  {
    PageGridYs(dl, -sx, sy, i, j);
    PageGridYs(dr, sx, sy, i, j);
  }

  lemma MirroredZ(dl: Dims, dr: Dims, sx: real, sy: real, i: nat, j: nat)
    requires sx != 0.0 && dl.depth == dr.depth
    requires i < 4 && j < 2
    ensures PageGrid(dl, -sx, sy)[i][j].z == PageGrid(dr, sx, sy)[3 - i][j].z
  {
    PageGridZ(dl, -sx, sy, i, j);
    PageGridZ(dr, sx, sy, 3 - i, j);
  }

  /**
   * The practical-class NURBS flower pot: the page grid with degree 2 across its
   * four rows, built once with scales defaulting to 1.
   */
  function BuildNurbsPot(num: Numerics, scaleX: Option<real>, scaleY: Option<real>, scaleZ: Option<real>): (p: Page)
    ensures p.surface.degreeU == 2 && p.surface.degreeV == 1
    ensures p.dims == PageDims(num, scaleX.GetOr(1.0), scaleY.GetOr(1.0), scaleZ.GetOr(1.0))
    ensures p.surface.points == PageGrid(p.dims, scaleX.GetOr(1.0), scaleY.GetOr(1.0))
  {
    BuildPage(num, PotOrderU, scaleX.GetOr(1.0), scaleY.GetOr(1.0), scaleZ.GetOr(1.0))
  }

  /** The pot's grid has one row more than degree 2 calls for: `orderU + 2` rows, not `orderU + 1`. */
  lemma NurbsPotHasExtraRow(num: Numerics, scaleX: Option<real>, scaleY: Option<real>, scaleZ: Option<real>)
    ensures var s := BuildNurbsPot(num, scaleX, scaleY, scaleZ).surface;
            |s.points| == s.degreeU + 2 && !MatchesDegrees(s)
  {
  }
}
