/** The column rasteriser of `airgap.py`: `find_color` and the sizing of the
    colour grid and depth tracker in `create_image`. Points arrive already
    binned: column and row are the integer cells the source obtains by
    flooring the rotated, scaled coordinates. */
module Raster {
  import opened Common

  /** One pixel of the RGBA `numpy.uint8` grid; alpha 0 marks "no data". */
  datatype Rgba = Rgba(red: byte, green: byte, blue: byte, alpha: byte)

  const Transparent := Rgba(0, 0, 0, 0)

  /** One image point: its cell (column = along-track bin, row = height bin
      plus bottom padding), its depth-axis coordinate and its 8-bit colour. */
  datatype Sample = Sample(col: nat, row: nat, depth: real, red: byte, green: byte, blue: byte)

  /** The visibility tie-break: west-to-east prefers smaller depth-axis
      values, east-to-west larger ones; both strictly. */
  predicate Nearer(dir: Direction, y: real, best: real)
  {
    match dir
    case WestToEast => y < best
    case EastToWest => y > best
  }

  predicate Hits(s: Sample, row: int, col: int)
  {
    s.row == row && s.col == col
  }

  ghost predicate HitBy(pts: seq<Sample>, row: int, col: int)
  {
    exists k :: 0 <= k < |pts| && Hits(pts[k], row, col)
  }

  /** The colour and tracked depth of one cell. */
  datatype Cell = Cell(color: Rgba, closest: real)

  /** What one point does to the cell it falls in. */
  function Visit(cell: Cell, s: Sample, dir: Direction): Cell
  {
    if Nearer(dir, s.depth, cell.closest) then Cell(Rgba(s.red, s.green, s.blue, 255), s.depth)
    else cell
  }

  /** The cell at (row, col) after the points have been visited in order. */
  ghost function CellAfter(init: Cell, pts: seq<Sample>, row: int, col: int, dir: Direction): Cell
    decreases |pts|
  {
    if pts == [] then init
    else
      var before := CellAfter(init, pts[..|pts| - 1], row, col, dir);
      if Hits(pts[|pts| - 1], row, col) then Visit(before, pts[|pts| - 1], dir) else before
  }

  /** A cell no point falls in keeps its initial colour and depth. */
  lemma {:induction false} CellAfterUnhit(init: Cell, pts: seq<Sample>, row: int, col: int, dir: Direction)
    requires !HitBy(pts, row, col)
    ensures CellAfter(init, pts, row, col, dir) == init
  {
    if pts != [] {
      var pre := pts[..|pts| - 1];
      assert !HitBy(pre, row, col) by {
        forall k | 0 <= k < |pre| ensures !Hits(pre[k], row, col) {
          assert pre[k] == pts[k];
        }
      }
      CellAfterUnhit(init, pre, row, col, dir);
    }
  }

  /** When every point of a cell beats the initial depth, the cell ends up
      opaque with the colour and depth of point k: no point of the cell is
      strictly nearer than k, and k is strictly nearer than every earlier
      point of the cell (ties keep the first-seen point). */
  lemma {:induction false} CellAfterNearest(init: Cell, pts: seq<Sample>, row: int, col: int, dir: Direction)
    returns (k: nat)
    requires HitBy(pts, row, col)
    requires forall j :: 0 <= j < |pts| && Hits(pts[j], row, col) ==> Nearer(dir, pts[j].depth, init.closest)
    ensures k < |pts| && Hits(pts[k], row, col)
    ensures CellAfter(init, pts, row, col, dir) == Cell(Rgba(pts[k].red, pts[k].green, pts[k].blue, 255), pts[k].depth)
    ensures forall j :: 0 <= j < |pts| && Hits(pts[j], row, col) ==> !Nearer(dir, pts[j].depth, pts[k].depth)
    ensures forall j :: 0 <= j < k && Hits(pts[j], row, col) ==> Nearer(dir, pts[k].depth, pts[j].depth)
  {
    var n := |pts| - 1;
    var pre := pts[..n];
    var p := pts[n];
    assert forall j :: 0 <= j < n ==> pre[j] == pts[j];
    if HitBy(pre, row, col) {
      var k' := CellAfterNearest(init, pre, row, col, dir);
      if Hits(p, row, col) && Nearer(dir, p.depth, pts[k'].depth) {
        k := n;
      } else {
        k := k';
      }
    } else {
      CellAfterUnhit(init, pre, row, col, dir);
      k := n;
    }
  }

  /** `find_color` in colour mode: one pass over the points, overwriting a
      cell's colour (alpha 255) and tracked depth only when the point is
      strictly nearer under `dir`. */
  method FindColor(grid: array2<Rgba>, closest: array2<real>, pts: seq<Sample>, dir: Direction)
    requires grid.Length0 == closest.Length0 && grid.Length1 == closest.Length1
    requires forall k :: 0 <= k < |pts| ==> pts[k].row < grid.Length0 && pts[k].col < grid.Length1
    modifies grid, closest
    ensures forall r, c :: 0 <= r < grid.Length0 && 0 <= c < grid.Length1 ==>
      Cell(grid[r, c], closest[r, c]) == CellAfter(Cell(old(grid[r, c]), old(closest[r, c])), pts, r, c, dir)
  {
    var i := 0;
    while i < |pts|
      invariant 0 <= i <= |pts|
      invariant forall r, c :: 0 <= r < grid.Length0 && 0 <= c < grid.Length1 ==>
        Cell(grid[r, c], closest[r, c]) == CellAfter(Cell(old(grid[r, c]), old(closest[r, c])), pts[..i], r, c, dir)
    {
      var p := pts[i];
      if Nearer(dir, p.depth, closest[p.row, p.col]) {
        closest[p.row, p.col] := p.depth;
        grid[p.row, p.col] := Rgba(p.red, p.green, p.blue, 255);
      }
      assert pts[..i + 1][..i] == pts[..i];
      i := i + 1;
    }
    assert pts[..|pts|] == pts;
  }

  /** `find_color` in black-and-white mode: every cell some point falls in
      is set to False, no other cell changes. */
  method MarkOccupied(mask: array2<bool>, pts: seq<Sample>)
    requires forall k :: 0 <= k < |pts| ==> pts[k].row < mask.Length0 && pts[k].col < mask.Length1
    modifies mask
    ensures forall r, c :: 0 <= r < mask.Length0 && 0 <= c < mask.Length1 ==>
      mask[r, c] == (old(mask[r, c]) && !HitBy(pts, r, c))
  {
    var i := 0;
    while i < |pts|
      invariant 0 <= i <= |pts|
      invariant forall r, c :: 0 <= r < mask.Length0 && 0 <= c < mask.Length1 ==>
        mask[r, c] == (old(mask[r, c]) && !HitBy(pts[..i], r, c))
    {
      mask[pts[i].row, pts[i].col] := false;
      forall r, c | 0 <= r < mask.Length0 && 0 <= c < mask.Length1
        ensures HitBy(pts[..i + 1], r, c) == (HitBy(pts[..i], r, c) || Hits(pts[i], r, c))
      {
        assert forall j :: 0 <= j < i ==> pts[..i + 1][j] == pts[..i][j];
        assert pts[..i + 1][i] == pts[i];
      }
      i := i + 1;
    }
    assert pts[..|pts|] == pts;
  }

  function Depths(pts: seq<Sample>): (d: seq<real>)
    ensures |d| == |pts| && forall k :: 0 <= k < |pts| ==> d[k] == pts[k].depth
  {
    seq(|pts|, k requires 0 <= k < |pts| => pts[k].depth)
  }

  /** The initial value of `closest_y`: one beyond the largest depth-axis
      value (west-to-east) or one below the smallest (east-to-west). */
  function InitialClosest(pts: seq<Sample>, dir: Direction): (y: real)
    requires |pts| > 0
    ensures forall k :: 0 <= k < |pts| ==> Nearer(dir, pts[k].depth, y)
  {
    match dir
    case WestToEast => MaxOf(Depths(pts)).value + 1.0
    case EastToWest => MinOf(Depths(pts)).value - 1.0
  }

  /** `numpy.max` of the columns (rows) of the points: the grid is one wider
      (taller) than this. */
  function ColExtent(pts: seq<Sample>): (m: nat)
    requires |pts| > 0
    ensures forall k :: 0 <= k < |pts| ==> pts[k].col <= m
    ensures exists k :: 0 <= k < |pts| && pts[k].col == m
  {
    if |pts| == 1 then pts[0].col
    else
      var m := ColExtent(pts[..|pts| - 1]);
      assert forall k :: 0 <= k < |pts| - 1 ==> pts[..|pts| - 1][k] == pts[k];
      if pts[|pts| - 1].col > m then pts[|pts| - 1].col else m
  }

  function RowExtent(pts: seq<Sample>): (m: nat)
    requires |pts| > 0
    ensures forall k :: 0 <= k < |pts| ==> pts[k].row <= m
    ensures exists k :: 0 <= k < |pts| && pts[k].row == m
  {
    if |pts| == 1 then pts[0].row
    else
      var m := RowExtent(pts[..|pts| - 1]);
      assert forall k :: 0 <= k < |pts| - 1 ==> pts[..|pts| - 1][k] == pts[k];
      if pts[|pts| - 1].row > m then pts[|pts| - 1].row else m
  }

  /** The pixel a colour-mode rasterisation of `pts` leaves at (row, col). */
  ghost function Rasterized(pts: seq<Sample>, dir: Direction, row: int, col: int): Rgba
    requires |pts| > 0
  {
    CellAfter(Cell(Transparent, InitialClosest(pts, dir)), pts, row, col, dir).color
  }

  /** A cell no point falls in stays transparent. */
  lemma RasterizedUnhit(pts: seq<Sample>, dir: Direction, row: int, col: int)
    requires |pts| > 0 && !HitBy(pts, row, col)
    ensures Rasterized(pts, dir, row, col) == Transparent
  {
    CellAfterUnhit(Cell(Transparent, InitialClosest(pts, dir)), pts, row, col, dir);
  }

  /** A cell some point falls in is opaque and carries the colour of the
      first of its nearest points. */
  lemma RasterizedNearest(pts: seq<Sample>, dir: Direction, row: int, col: int) returns (k: nat)
    requires |pts| > 0 && HitBy(pts, row, col)
    ensures k < |pts| && Hits(pts[k], row, col)
    ensures Rasterized(pts, dir, row, col) == Rgba(pts[k].red, pts[k].green, pts[k].blue, 255)
    ensures forall j :: 0 <= j < |pts| && Hits(pts[j], row, col) ==> !Nearer(dir, pts[j].depth, pts[k].depth)
    ensures forall j :: 0 <= j < k && Hits(pts[j], row, col) ==> Nearer(dir, pts[k].depth, pts[j].depth)
  {
    k := CellAfterNearest(Cell(Transparent, InitialClosest(pts, dir)), pts, row, col, dir);
  }

  /** The grid sizing of `create_image` followed by `find_color`: a grid one
      cell beyond the largest column and row, all transparent, a depth
      tracker at `InitialClosest`, then one rasterisation pass. */
  method NewColorGrid(pts: seq<Sample>, dir: Direction) returns (grid: array2<Rgba>)
    requires |pts| > 0
    ensures fresh(grid)
    ensures grid.Length0 == RowExtent(pts) + 1 && grid.Length1 == ColExtent(pts) + 1
    ensures forall r, c :: 0 <= r < grid.Length0 && 0 <= c < grid.Length1 ==>
      grid[r, c] == Rasterized(pts, dir, r, c)
  {
    var height := RowExtent(pts) + 1;
    var width := ColExtent(pts) + 1;
    var start := InitialClosest(pts, dir);
    grid := new Rgba[height, width]((r, c) => Transparent);
    var closest := new real[height, width]((r, c) => start);
    FindColor(grid, closest, pts, dir);
  }
}
