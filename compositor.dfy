/** The image compositor of `airgap.py`: `average_and_color`,
    `color_obstructions` and the horizontal mirror of `create_image`.
    The methods work in place on the `array2` grid; their contracts are
    stated through `Cells`, the grid's value as a sequence of rows. */
module Compositor {
  import opened Common
  import opened Raster

  type Grid = seq<seq<Rgba>>

  function Width(g: Grid): nat
  {
    if g == [] then 0 else |g[0]|
  }

  ghost predicate Rectangular(g: Grid)
  {
    forall r :: 0 <= r < |g| ==> |g[r]| == Width(g)
  }

  /** The current contents of an array, row by row. */
  function Cells(a: array2<Rgba>): (g: Grid)
    reads a
    ensures |g| == a.Length0 && Rectangular(g)
    ensures a.Length0 > 0 ==> Width(g) == a.Length1
    ensures forall r, c :: 0 <= r < a.Length0 && 0 <= c < a.Length1 ==> g[r][c] == a[r, c]
  {
    seq(a.Length0, r reads a requires 0 <= r < a.Length0 =>
      seq(a.Length1, c reads a requires 0 <= c < a.Length1 => a[r, c]))
  }

  lemma GridsEqual(g: Grid, h: Grid)
    requires |g| == |h| && Rectangular(g) && Rectangular(h) && Width(g) == Width(h)
    requires forall r, c :: 0 <= r < |g| && 0 <= c < Width(g) ==> g[r][c] == h[r][c]
    ensures g == h
  {
    forall r | 0 <= r < |g| ensures g[r] == h[r] {
      assert forall c :: 0 <= c < |g[r]| ==> g[r][c] == h[r][c];
    }
  }

  /** A half-open range `[lo, hi)` of valid indices. */
  datatype Span = Span(lo: nat, hi: nat)

  /** The bounds of a Python slice `[start:stop]`, either possibly negative. */
  datatype Slice = Slice(start: int, stop: int)

  /** A slice bound on a length-n axis: negative bounds count from the end,
      and out-of-range bounds are clamped. */
  function SliceIndex(i: int, n: nat): (k: nat)
    ensures k <= n
    ensures 0 <= i <= n ==> k == i
    ensures i < 0 && 0 <= n + i ==> k == n + i
    ensures n + i < 0 ==> k == 0
    ensures n < i ==> k == n
  {
    if i < 0 then (if n + i < 0 then 0 else n + i) else if i > n then n else i
  }

  /** The indices the slice selects from a length-n axis. */
  function Clip(s: Slice, n: nat): (r: Span)
    ensures r.lo <= r.hi <= n
    ensures r.lo == SliceIndex(s.start, n)
    ensures r.lo < r.hi <==> SliceIndex(s.start, n) < SliceIndex(s.stop, n)
    ensures r.lo < r.hi ==> r.hi == SliceIndex(s.stop, n)
  {
    var l := SliceIndex(s.start, n);
    var h := SliceIndex(s.stop, n);
    Span(l, if h < l then l else h)
  }

  ghost predicate InGrid(g: Grid, rs: Span, cs: Span)
  {
    rs.lo <= rs.hi <= |g| && cs.lo <= cs.hi && forall r :: rs.lo <= r < rs.hi ==> cs.hi <= |g[r]|
  }

  datatype Channel = Red | Green | Blue

  function Chan(p: Rgba, k: Channel): nat
  {
    match k
    case Red => p.red as nat
    case Green => p.green as nat
    case Blue => p.blue as nat
  }

  predicate Opaque(p: Rgba)
  {
    p.alpha == 255
  }

  /** Channel k summed over the opaque cells of row[c0..c1]. */
  function RowSum(row: seq<Rgba>, c0: nat, c1: nat, k: Channel): nat
    requires c0 <= c1 <= |row|
    decreases c1
  {
    if c1 == c0 then 0
    else RowSum(row, c0, c1 - 1, k) + (if Opaque(row[c1 - 1]) then Chan(row[c1 - 1], k) else 0)
  }

  /** The number of opaque cells of row[c0..c1]. */
  function RowCount(row: seq<Rgba>, c0: nat, c1: nat): nat
    requires c0 <= c1 <= |row|
    decreases c1
  {
    if c1 == c0 then 0 else RowCount(row, c0, c1 - 1) + (if Opaque(row[c1 - 1]) then 1 else 0)
  }

  function RegionSum(g: Grid, rs: Span, cs: Span, k: Channel): nat
    requires InGrid(g, rs, cs)
    decreases rs.hi
  {
    if rs.hi == rs.lo then 0
    else RegionSum(g, Span(rs.lo, rs.hi - 1), cs, k) + RowSum(g[rs.hi - 1], cs.lo, cs.hi, k)
  }

  function RegionCount(g: Grid, rs: Span, cs: Span): nat
    requires InGrid(g, rs, cs)
    decreases rs.hi
  {
    if rs.hi == rs.lo then 0
    else RegionCount(g, Span(rs.lo, rs.hi - 1), cs) + RowCount(g[rs.hi - 1], cs.lo, cs.hi)
  }

  lemma {:induction false} RowSumBound(row: seq<Rgba>, c0: nat, c1: nat, k: Channel)
    requires c0 <= c1 <= |row|
    ensures RowSum(row, c0, c1, k) <= 255 * RowCount(row, c0, c1)
    decreases c1
  {
    if c1 > c0 {
      RowSumBound(row, c0, c1 - 1, k);
    }
  }

  lemma {:induction false} RegionSumBound(g: Grid, rs: Span, cs: Span, k: Channel)
    requires InGrid(g, rs, cs)
    ensures RegionSum(g, rs, cs, k) <= 255 * RegionCount(g, rs, cs)
    decreases rs.hi
  {
    if rs.hi > rs.lo {
      RegionSumBound(g, Span(rs.lo, rs.hi - 1), cs, k);
      RowSumBound(g[rs.hi - 1], cs.lo, cs.hi, k);
    }
  }

  /** A float mean stored into a `uint8` cell: the truncated quotient, and
      0 when there is nothing to average. */
  function Mean(sum: nat, count: nat): (m: byte)
    requires sum <= 255 * count
    ensures count == 0 ==> m == 0
    ensures count > 0 ==> m as int * count <= sum < (m as int + 1) * count
  {
    if count == 0 then 0
    else
      var q := sum / count;
      assert q <= 255;
      q as byte
  }

  /** The per-channel mean over the opaque cells of a rectangle, with the
      given alpha. */
  function MeanColor(g: Grid, rs: Span, cs: Span, alpha: byte): Rgba
    requires InGrid(g, rs, cs)
  {
    RegionSumBound(g, rs, cs, Red);
    RegionSumBound(g, rs, cs, Green);
    RegionSumBound(g, rs, cs, Blue);
    var n := RegionCount(g, rs, cs);
    Rgba(Mean(RegionSum(g, rs, cs, Red), n), Mean(RegionSum(g, rs, cs, Green), n),
         Mean(RegionSum(g, rs, cs, Blue), n), alpha)
  }

  /** The row where the source's per-column scan stops: the first row of
      [r, hi) whose alpha is not 0, or the last row when there is none. */
  function StopRow(g: Grid, c: nat, r: nat, hi: nat): (y: nat)
    requires r < hi <= |g| && forall q :: r <= q < hi ==> c < |g[q]|
    ensures r <= y < hi
    ensures forall q :: r <= q < y ==> g[q][c].alpha == 0
    ensures y < hi - 1 ==> g[y][c].alpha != 0
    decreases hi - r
  {
    if r == hi - 1 || g[r][c].alpha != 0 then r else StopRow(g, c, r + 1, hi)
  }

  /** What `average_and_color` leaves at (r, c): the fill colour on the rows
      below the band (when drawing lower) and above-band cells of the band
      before the column's stop row, unless the stop row is the band's last. */
  function Filled(g: Grid, rs: Span, cs: Span, drawLower: bool, fill: Rgba, r: nat, c: nat): Rgba
    requires r < |g| && c < |g[r]| && InGrid(g, rs, cs)
  {
    if cs.lo <= c < cs.hi && drawLower && r < rs.lo then fill
    else if cs.lo <= c < cs.hi && rs.lo <= r < rs.hi
      && StopRow(g, c, rs.lo, rs.hi) != rs.hi - 1 && r < StopRow(g, c, rs.lo, rs.hi) then fill
    else g[r][c]
  }

  /** The grid after `average_and_color(g, [rows, cols], draw_lower, alpha)`;
      `rows` and `cols` are raw slice bounds. */
  function AverageAndColorGrid(g: Grid, rows: Slice, cols: Slice, drawLower: bool, alpha: byte): Grid
    requires Rectangular(g)
  {
    var rs := Clip(rows, |g|);
    var cs := Clip(cols, Width(g));
    var fill := MeanColor(g, rs, cs, alpha);
    seq(|g|, r requires 0 <= r < |g| =>
      seq(Width(g), c requires 0 <= c < Width(g) => Filled(g, rs, cs, drawLower, fill, r, c)))
  }

  lemma AverageAndColorShape(g: Grid, rows: Slice, cols: Slice, drawLower: bool, alpha: byte)
    requires Rectangular(g)
    ensures var h := AverageAndColorGrid(g, rows, cols, drawLower, alpha);
      |h| == |g| && Rectangular(h) && Width(h) == Width(g)
  {
  }

  /** Columns outside the range never change. */
  lemma AverageAndColorFrame(g: Grid, rows: Slice, cols: Slice, drawLower: bool, alpha: byte, r: nat, c: nat)
    requires Rectangular(g) && r < |g| && c < Width(g)
    requires c < Clip(cols, Width(g)).lo || Clip(cols, Width(g)).hi <= c
    ensures AverageAndColorGrid(g, rows, cols, drawLower, alpha)[r][c] == g[r][c]
  {
  }

  /** With `draw_lower`, the rows below the band are painted with the mean
      colour across the column range. */
  lemma AverageAndColorLower(g: Grid, rows: Slice, cols: Slice, alpha: byte, r: nat, c: nat)
    requires Rectangular(g) && c < Width(g) && Clip(cols, Width(g)).lo <= c < Clip(cols, Width(g)).hi
    requires r < Clip(rows, |g|).lo
    ensures AverageAndColorGrid(g, rows, cols, true, alpha)[r][c]
      == MeanColor(g, Clip(rows, |g|), Clip(cols, Width(g)), alpha)
  {
  }

  /** Inside the band, a column whose first non-transparent cell is row y,
      before the band's last row, gets the mean colour on the rows above y
      and keeps everything from y on. */
  lemma AverageAndColorColumn(g: Grid, rows: Slice, cols: Slice, drawLower: bool, alpha: byte, c: nat, y: nat)
    requires Rectangular(g) && c < Width(g) && Clip(cols, Width(g)).lo <= c < Clip(cols, Width(g)).hi
    requires Clip(rows, |g|).lo <= y < Clip(rows, |g|).hi - 1
    requires g[y][c].alpha != 0 && forall q :: Clip(rows, |g|).lo <= q < y ==> g[q][c].alpha == 0
    ensures forall r :: Clip(rows, |g|).lo <= r < Clip(rows, |g|).hi ==>
      AverageAndColorGrid(g, rows, cols, drawLower, alpha)[r][c]
        == if r < y then MeanColor(g, Clip(rows, |g|), Clip(cols, Width(g)), alpha) else g[r][c]
  {
    var rs := Clip(rows, |g|);
    var y' := StopRow(g, c, rs.lo, rs.hi);
    assert y' == y;
  }

  /** A column that is transparent throughout the band, or whose first
      non-transparent cell is the band's last row, keeps its band cells. */
  lemma AverageAndColorColumnKept(g: Grid, rows: Slice, cols: Slice, drawLower: bool, alpha: byte, c: nat)
    requires Rectangular(g) && c < Width(g) && Clip(rows, |g|).lo < Clip(rows, |g|).hi
    requires forall q :: Clip(rows, |g|).lo <= q < Clip(rows, |g|).hi - 1 ==> g[q][c].alpha == 0
    ensures forall r :: Clip(rows, |g|).lo <= r < Clip(rows, |g|).hi ==>
      AverageAndColorGrid(g, rows, cols, drawLower, alpha)[r][c] == g[r][c]
  {
    var rs := Clip(rows, |g|);
    var y := StopRow(g, c, rs.lo, rs.hi);
    assert y == rs.hi - 1;
  }

  /** The opaque-cell channel sums and count of one row of the array across
      a column range. */
  method SumRow(a: array2<Rgba>, r: nat, cs: Span, ghost row: seq<Rgba>)
    returns (red: nat, green: nat, blue: nat, count: nat)
    requires r < a.Length0 && cs.lo <= cs.hi <= a.Length1 && cs.hi <= |row|
    requires forall c :: cs.lo <= c < cs.hi ==> a[r, c] == row[c]
    ensures red == RowSum(row, cs.lo, cs.hi, Red) && green == RowSum(row, cs.lo, cs.hi, Green)
    ensures blue == RowSum(row, cs.lo, cs.hi, Blue) && count == RowCount(row, cs.lo, cs.hi)
  {
    red, green, blue, count := 0, 0, 0, 0;
    var c := cs.lo;
    while c < cs.hi
      invariant cs.lo <= c <= cs.hi
      invariant red == RowSum(row, cs.lo, c, Red) && green == RowSum(row, cs.lo, c, Green)
      invariant blue == RowSum(row, cs.lo, c, Blue) && count == RowCount(row, cs.lo, c)
    {
      var p := a[r, c];
      if p.alpha == 255 {
        red, green, blue, count := red + p.red as nat, green + p.green as nat, blue + p.blue as nat, count + 1;
      }
      c := c + 1;
    }
  }

  /** The mean colour of a rectangle of the array, computed cell by cell. */
  method RegionMean(a: array2<Rgba>, rs: Span, cs: Span, alpha: byte) returns (fill: Rgba)
    requires rs.lo <= rs.hi <= a.Length0 && cs.lo <= cs.hi <= a.Length1
    ensures fill == MeanColor(Cells(a), rs, cs, alpha)
  {
    ghost var g := Cells(a);
    var red, green, blue, count := 0, 0, 0, 0;
    var r := rs.lo;
    while r < rs.hi
      invariant rs.lo <= r <= rs.hi
      invariant red == RegionSum(g, Span(rs.lo, r), cs, Red)
      invariant green == RegionSum(g, Span(rs.lo, r), cs, Green)
      invariant blue == RegionSum(g, Span(rs.lo, r), cs, Blue)
      invariant count == RegionCount(g, Span(rs.lo, r), cs)
    {
      var rowRed, rowGreen, rowBlue, rowCount := SumRow(a, r, cs, g[r]);
      red, green, blue, count := red + rowRed, green + rowGreen, blue + rowBlue, count + rowCount;
      r := r + 1;
    }
    RegionSumBound(g, rs, cs, Red);
    RegionSumBound(g, rs, cs, Green);
    RegionSumBound(g, rs, cs, Blue);
    fill := Rgba(Mean(red, count), Mean(green, count), Mean(blue, count), alpha);
  }

  /** One column of the band: the scan down from the band's first row to
      its stop row, and the fill of the rows it passed when it did not reach
      the band's last row. */
  method FillColumn(a: array2<Rgba>, x: nat, rs: Span, fill: Rgba, ghost g: Grid)
    requires rs.lo < rs.hi <= a.Length0 && x < a.Length1 && |g| == a.Length0
    requires forall q :: rs.lo <= q < rs.hi ==> x < |g[q]| && a[q, x] == g[q][x]
    modifies a
    ensures forall r, c :: 0 <= r < a.Length0 && 0 <= c < a.Length1 ==>
      a[r, c] == if c == x && rs.lo <= r < StopRow(g, x, rs.lo, rs.hi)
                    && StopRow(g, x, rs.lo, rs.hi) != rs.hi - 1 then fill else old(a[r, c])
  {
    var y := rs.lo;
    while y < rs.hi - 1 && a[y, x].alpha == 0
      invariant rs.lo <= y <= rs.hi - 1
      invariant StopRow(g, x, rs.lo, rs.hi) == StopRow(g, x, y, rs.hi)
    {
      y := y + 1;
    }
    if y != rs.hi - 1 {
      forall q | rs.lo <= q < y {
        a[q, x] := fill;
      }
    }
  }

  /** `average_and_color`: paints the mean colour of the opaque cells of the
      rectangle below it (when `drawLower`) and into the transparent cells
      above each column's first opaque cell. `ok` is false exactly when the
      source raises: a band of no rows over a non-empty column range leaves
      its scan variable unbound (after the rows below have been painted). */
  method AverageAndColor(a: array2<Rgba>, rows: Slice, cols: Slice, drawLower: bool, alpha: byte)
    returns (ok: bool)
    modifies a
    ensures ok == !(Clip(rows, a.Length0).lo == Clip(rows, a.Length0).hi
                    && Clip(cols, a.Length1).lo < Clip(cols, a.Length1).hi)
    ensures Cells(a) == AverageAndColorGrid(old(Cells(a)), rows, cols, drawLower, alpha)
  {
    ghost var g0 := Cells(a);
    var rs := Clip(rows, a.Length0);
    var cs := Clip(cols, a.Length1);
    var fill := RegionMean(a, rs, cs, alpha);
    if drawLower {
      forall r, c | 0 <= r < rs.lo && cs.lo <= c < cs.hi {
        a[r, c] := fill;
      }
    }
    if rs.lo == rs.hi {
      ok := cs.lo == cs.hi;
    } else {
      ok := true;
      var x := cs.lo;
      while x < cs.hi
        invariant cs.lo <= x <= cs.hi
        invariant forall r, c :: 0 <= r < a.Length0 && 0 <= c < a.Length1 ==>
          a[r, c] == if c < x || r < rs.lo then Filled(g0, rs, cs, drawLower, fill, r, c) else g0[r][c]
      {
        FillColumn(a, x, rs, fill, g0);
        x := x + 1;
      }
    }
    AverageAndColorResult(g0, rows, cols, drawLower, alpha, Cells(a));
  }

  /** A grid that agrees with `Filled` cell by cell is the result. */
  lemma AverageAndColorResult(g: Grid, rows: Slice, cols: Slice, drawLower: bool, alpha: byte, h: Grid)
    requires Rectangular(g) && Rectangular(h) && |h| == |g| && Width(h) == Width(g)
    requires forall r, c :: 0 <= r < |g| && 0 <= c < Width(g) ==>
      h[r][c] == Filled(g, Clip(rows, |g|), Clip(cols, Width(g)), drawLower,
                        MeanColor(g, Clip(rows, |g|), Clip(cols, Width(g)), alpha), r, c)
    ensures h == AverageAndColorGrid(g, rows, cols, drawLower, alpha)
  {
    GridsEqual(h, AverageAndColorGrid(g, rows, cols, drawLower, alpha));
  }

  /** What `numpy.mean` of one column of the band compares as: positive when
      some cell has a non-zero channel, zero when all are zero, and NaN
      (neither) when the band has no rows. */
  datatype BandMean = Positive | Zero | Undefined

  function BandSign(g: Grid, rs: Span, c: nat): BandMean
    requires rs.lo <= rs.hi <= |g| && forall q :: rs.lo <= q < rs.hi ==> c < |g[q]|
  {
    if rs.lo == rs.hi then Undefined
    else if exists q :: rs.lo <= q < rs.hi && g[q][c] != Transparent then Positive
    else Zero
  }

  ghost predicate BandFits(g: Grid, rs: Span, hi: int)
  {
    rs.lo <= rs.hi <= |g| && forall q :: rs.lo <= q < rs.hi ==> hi <= |g[q]|
  }

  /** The column ranges `color_obstructions` flattens, scanning columns
      [i, hi) with `start` the pending run start (`start_i`). A run closes at
      the first zero column; a pending run is flushed at the end only when
      its start is truthy (not 0), and then stops before the last column. */
  function ScanRuns(g: Grid, rs: Span, i: nat, hi: int, start: Option<nat>): seq<Span>
    requires BandFits(g, rs, hi)
    requires start.Some? ==> start.value < i
    decreases hi - i
  {
    if i >= hi then
      (if start.Some? && start.value != 0 then [Span(start.value, i - 1)] else [])
    else
      var s := BandSign(g, rs, i);
      if s == Positive && start.None? then ScanRuns(g, rs, i + 1, hi, Some(i))
      else if s == Zero && start.Some? then [Span(start.value, i)] + ScanRuns(g, rs, i + 1, hi, None)
      else ScanRuns(g, rs, i + 1, hi, start)
  }

  /** The band rows `color_obstructions` works on. */
  function Band(g: Grid, paddingBottom: nat, colorHeight: int): Span
  {
    Clip(Slice(paddingBottom, paddingBottom + colorHeight), |g|)
  }

  /** A run as the column slice handed to `average_and_color`. */
  function Cols(run: Span): Slice
  {
    Slice(run.lo, run.hi)
  }

  function ObstructionRuns(g: Grid, paddingLeft: nat, paddingBottom: nat, paddingRight: nat, colorHeight: int): seq<Span>
    requires Rectangular(g)
  {
    ScanRuns(g, Band(g, paddingBottom, colorHeight), paddingRight, Width(g) - paddingLeft, None)
  }

  /** `average_and_color` applied to each run in turn. */
  function ApplyRuns(g: Grid, rows: Slice, runs: seq<Span>): (h: Grid)
    requires Rectangular(g)
    ensures |h| == |g| && Rectangular(h) && Width(h) == Width(g)
    decreases |runs|
  {
    if runs == [] then g
    else
      AverageAndColorShape(g, rows, Cols(runs[0]), true, 255);
      ApplyRuns(AverageAndColorGrid(g, rows, Cols(runs[0]), true, 255), rows, runs[1..])
  }

  lemma {:induction false} ApplyRunsSnoc(g: Grid, rows: Slice, runs: seq<Span>, run: Span)
    requires Rectangular(g)
    ensures ApplyRuns(g, rows, runs + [run]) == AverageAndColorGrid(ApplyRuns(g, rows, runs), rows, Cols(run), true, 255)
    decreases |runs|
  {
    if runs != [] {
      AverageAndColorShape(g, rows, Cols(runs[0]), true, 255);
      assert (runs + [run])[1..] == runs[1..] + [run];
      ApplyRunsSnoc(AverageAndColorGrid(g, rows, Cols(runs[0]), true, 255), rows, runs[1..], run);
    }
  }

  /** Flattening runs that all end at or before column x leaves every column
      from x on untouched. */
  lemma {:induction false} ApplyRunsFrame(g: Grid, rows: Slice, runs: seq<Span>, x: nat)
    requires Rectangular(g)
    requires forall k :: 0 <= k < |runs| ==> runs[k].hi <= x
    ensures forall r, c :: 0 <= r < |g| && x <= c < Width(g) ==> ApplyRuns(g, rows, runs)[r][c] == g[r][c]
    decreases |runs|
  {
    if runs != [] {
      var h := AverageAndColorGrid(g, rows, Cols(runs[0]), true, 255);
      AverageAndColorShape(g, rows, Cols(runs[0]), true, 255);
      ApplyRunsFrame(h, rows, runs[1..], x);
      forall r, c | 0 <= r < |g| && x <= c < Width(g) ensures h[r][c] == g[r][c] {
        AverageAndColorFrame(g, rows, Cols(runs[0]), true, 255, r, c);
      }
    }
  }

  /** Every run lies inside [from, hi), every column of a run has data in
      the band, and a run ends either at a column that is empty in the band
      or just before the last scanned column. */
  ghost predicate RunsSound(g: Grid, rs: Span, runs: seq<Span>, from: nat, hi: int)
    requires BandFits(g, rs, hi)
  {
    forall k :: 0 <= k < |runs| ==>
      && from <= runs[k].lo <= runs[k].hi < hi
      && (forall c :: runs[k].lo <= c < runs[k].hi ==> BandSign(g, rs, c) == Positive)
      && (BandSign(g, rs, runs[k].hi) == Zero || runs[k].hi == hi - 1)
  }

  lemma {:induction false} ScanRunsSound(g: Grid, rs: Span, i: nat, hi: int, start: Option<nat>)
    requires BandFits(g, rs, hi)
    requires start.Some? ==> start.value < i <= hi
    requires start.Some? ==> forall c :: start.value <= c < i ==> BandSign(g, rs, c) == Positive
    ensures RunsSound(g, rs, ScanRuns(g, rs, i, hi, start), if start.Some? then start.value else i, hi)
    decreases hi - i
  {
    if i < hi {
      var s := BandSign(g, rs, i);
      if start.Some? {
        assert BandSign(g, rs, start.value) == Positive;
      }
      if s == Positive && start.None? {
        ScanRunsSound(g, rs, i + 1, hi, Some(i));
      } else if s == Zero && start.Some? {
        ScanRunsSound(g, rs, i + 1, hi, None);
      } else {
        ScanRunsSound(g, rs, i + 1, hi, start);
      }
    }
  }

  /** The runs of `color_obstructions` lie inside the scanned columns
      [padding_right, width - padding_left) and cover only columns with
      data in the band. */
  lemma ObstructionRunsSound(g: Grid, paddingLeft: nat, paddingBottom: nat, paddingRight: nat, colorHeight: int)
    requires Rectangular(g)
    ensures RunsSound(g, Band(g, paddingBottom, colorHeight),
      ObstructionRuns(g, paddingLeft, paddingBottom, paddingRight, colorHeight), paddingRight, Width(g) - paddingLeft)
  {
    ScanRunsSound(g, Band(g, paddingBottom, colorHeight), paddingRight, Width(g) - paddingLeft, None);
  }

  /** Column c lies inside one of the runs. */
  ghost predicate Covered(runs: seq<Span>, c: int)
  {
    exists k :: 0 <= k < |runs| && runs[k].lo <= c < runs[k].hi
  }

  /** Every column of [lo, hi) has data in the band. */
  ghost predicate AllPositive(g: Grid, rs: Span, lo: nat, hi: int)
    requires BandFits(g, rs, hi)
  {
    forall c :: lo <= c < hi ==> BandSign(g, rs, c) == Positive
  }

  lemma CoveredCons(run: Span, runs: seq<Span>, c: int)
    requires Covered(runs, c) || run.lo <= c < run.hi
    ensures Covered([run] + runs, c)
  {
    if run.lo <= c < run.hi {
      assert ([run] + runs)[0] == run;
    } else {
      var k :| 0 <= k < |runs| && runs[k].lo <= c < runs[k].hi;
      assert ([run] + runs)[k + 1] == runs[k];
    }
  }

  /** Each run starts at `from`, the start of the scan, or right after a
      column without data in the band. */
  ghost predicate RunsStartAfterGap(g: Grid, rs: Span, runs: seq<Span>, from: nat, hi: int)
    requires BandFits(g, rs, hi)
  {
    forall k :: 0 <= k < |runs| ==>
      runs[k].lo == from || (0 < runs[k].lo <= hi && BandSign(g, rs, runs[k].lo - 1) != Positive)
  }

  /** A column of [from, hi) with data in the band that no run covers
      belongs to a run still open at the end (every column from it on has
      data) and is the last scanned column, or the open run started at
      column 0. */
  ghost predicate MissedOnlyAtEnd(g: Grid, rs: Span, runs: seq<Span>, from: nat, hi: int)
    requires BandFits(g, rs, hi)
  {
    forall c :: from <= c < hi && BandSign(g, rs, c) == Positive && !Covered(runs, c) ==>
      AllPositive(g, rs, c, hi) && (c == hi - 1 || (from == 0 && AllPositive(g, rs, 0, hi)))
  }

  lemma {:induction false} ScanRunsStarts(g: Grid, rs: Span, i: nat, hi: int, start: Option<nat>)
    requires BandFits(g, rs, hi)
    requires start.Some? ==> start.value < i <= hi
    ensures RunsStartAfterGap(g, rs, ScanRuns(g, rs, i, hi, start), if start.Some? then start.value else i, hi)
    decreases hi - i
  {
    if i < hi {
      var s := BandSign(g, rs, i);
      if s == Positive && start.None? {
        ScanRunsStarts(g, rs, i + 1, hi, Some(i));
      } else if s == Zero && start.Some? {
        var rest := ScanRuns(g, rs, i + 1, hi, None);
        var runs := [Span(start.value, i)] + rest;
        ScanRunsStarts(g, rs, i + 1, hi, None);
        forall k | 0 < k < |runs|
          ensures runs[k].lo == i + 1 || (0 < runs[k].lo <= hi && BandSign(g, rs, runs[k].lo - 1) != Positive)
        {
          assert runs[k] == rest[k - 1];
        }
      } else {
        ScanRunsStarts(g, rs, i + 1, hi, start);
      }
    }
  }

  /** The other half of `ScanRunsSound`: a column with data in the band is
      missed only at the end of the scan. */
  lemma {:induction false} ScanRunsComplete(g: Grid, rs: Span, i: nat, hi: int, start: Option<nat>)
    requires BandFits(g, rs, hi)
    requires start.Some? ==> start.value < i <= hi
    requires start.Some? ==> forall c :: start.value <= c < i ==> BandSign(g, rs, c) == Positive
    ensures MissedOnlyAtEnd(g, rs, ScanRuns(g, rs, i, hi, start), if start.Some? then start.value else i, hi)
    decreases hi - i
  {
    if i >= hi {
      if start.Some? && start.value != 0 {
        var runs := [Span(start.value, i - 1)];
        forall c | start.value <= c < hi - 1 ensures Covered(runs, c) {
          assert runs[0].lo <= c < runs[0].hi;
        }
      }
    } else {
      var s := BandSign(g, rs, i);
      if start.Some? {
        assert BandSign(g, rs, start.value) == Positive;
      }
      if s == Positive && start.None? {
        ScanRunsComplete(g, rs, i + 1, hi, Some(i));
      } else if s == Zero && start.Some? {
        var run := Span(start.value, i);
        var rest := ScanRuns(g, rs, i + 1, hi, None);
        ScanRunsComplete(g, rs, i + 1, hi, None);
        forall c | start.value <= c < hi && BandSign(g, rs, c) == Positive && !Covered([run] + rest, c)
          ensures AllPositive(g, rs, c, hi) && c == hi - 1
        {
          if c < i || Covered(rest, c) {
            CoveredCons(run, rest, c);
          }
        }
      } else {
        ScanRunsComplete(g, rs, i + 1, hi, start);
      }
    }
  }

  /** `color_obstructions` misses a column with data in the band only in a
      run still open at the end: its last scanned column, or the whole open
      run when it started at column 0. Every run starts at `padding_right`
      or right after a column without data. */
  lemma ObstructionRunsComplete(g: Grid, paddingLeft: nat, paddingBottom: nat, paddingRight: nat, colorHeight: int)
    requires Rectangular(g)
    ensures BandFits(g, Band(g, paddingBottom, colorHeight), Width(g) - paddingLeft)
    ensures RunsStartAfterGap(g, Band(g, paddingBottom, colorHeight),
      ObstructionRuns(g, paddingLeft, paddingBottom, paddingRight, colorHeight), paddingRight, Width(g) - paddingLeft)
    ensures MissedOnlyAtEnd(g, Band(g, paddingBottom, colorHeight),
      ObstructionRuns(g, paddingLeft, paddingBottom, paddingRight, colorHeight), paddingRight, Width(g) - paddingLeft)
  {
    ScanRunsStarts(g, Band(g, paddingBottom, colorHeight), paddingRight, Width(g) - paddingLeft, None);
    ScanRunsComplete(g, Band(g, paddingBottom, colorHeight), paddingRight, Width(g) - paddingLeft, None);
  }

  /** The trailing run quirk: a run still open at the end, not starting at
      column 0, is flushed without the last scanned column, although that
      column has data in the band. */
  lemma TrailingRunSkipsLastColumn(g: Grid, rs: Span, hi: nat, s: nat)
    requires BandFits(g, rs, hi) && 0 < s < hi
    requires BandSign(g, rs, hi - 1) == Positive
    ensures ScanRuns(g, rs, hi, hi, Some(s)) == [Span(s, hi - 1)]
  {
  }

  /** Column x reads the same in the band after runs that end at or before
      it have been flattened. */
  lemma BandSignKept(g: Grid, rows: Slice, done: seq<Span>, rs: Span, x: nat)
    requires Rectangular(g) && x < Width(g) && rs.lo <= rs.hi <= |g|
    requires forall k :: 0 <= k < |done| ==> done[k].hi <= x
    ensures BandFits(ApplyRuns(g, rows, done), rs, x + 1) && BandFits(g, rs, x + 1)
    ensures BandSign(ApplyRuns(g, rows, done), rs, x) == BandSign(g, rs, x)
  {
    var h := ApplyRuns(g, rows, done);
    ApplyRunsFrame(g, rows, done, x);
    assert forall q :: rs.lo <= q < rs.hi ==> h[q][x] == g[q][x];
  }

  /** One `average_and_color(…, draw_lower=True, alpha=255)` call of the
      scan, seen as one more step of `ApplyRuns`. */
  method FlattenRun(a: array2<Rgba>, rows: Slice, run: Span, ghost g0: Grid, ghost done: seq<Span>)
    requires Rectangular(g0) && Cells(a) == ApplyRuns(g0, rows, done)
    requires Clip(rows, a.Length0).lo < Clip(rows, a.Length0).hi
    modifies a
    ensures Cells(a) == ApplyRuns(g0, rows, done + [run])
  {
    var ok := AverageAndColor(a, rows, Cols(run), true, 255);
    assert ok;
    ApplyRunsSnoc(g0, rows, done, run);
  }

  /** One column of the scan: opens a run at a column with data, closes and
      flattens the pending run at an empty column. */
  method ScanColumn(a: array2<Rgba>, rows: Slice, rs: Span, i: nat, hi: int, start: Option<nat>,
                    ghost g0: Grid, ghost done: seq<Span>, ghost runs: seq<Span>)
    returns (next: Option<nat>, ghost done': seq<Span>)
    requires Rectangular(g0) && |g0| == a.Length0 > 0 && Width(g0) == a.Length1
    requires rs == Clip(rows, a.Length0) && rs.hi <= |g0| && i < hi <= a.Length1
    requires start.Some? ==> start.value < i && rs.lo < rs.hi
    requires Cells(a) == ApplyRuns(g0, rows, done)
    requires forall k :: 0 <= k < |done| ==> done[k].hi <= i
    requires runs == done + ScanRuns(g0, rs, i, hi, start)
    modifies a
    ensures next.Some? ==> next.value < i + 1 && rs.lo < rs.hi
    ensures Cells(a) == ApplyRuns(g0, rows, done')
    ensures forall k :: 0 <= k < |done'| ==> done'[k].hi <= i + 1
    ensures runs == done' + ScanRuns(g0, rs, i + 1, hi, next)
  {
    BandSignKept(g0, rows, done, rs, i);
    var sign := BandSign(Cells(a), rs, i);
    next, done' := start, done;
    if sign == Positive && start.None? {
      next := Some(i);
    } else if sign == Zero && start.Some? {
      var run := Span(start.value, i);
      assert ScanRuns(g0, rs, i, hi, start) == [run] + ScanRuns(g0, rs, i + 1, hi, None);
      assert done + ([run] + ScanRuns(g0, rs, i + 1, hi, None)) == (done + [run]) + ScanRuns(g0, rs, i + 1, hi, None);
      FlattenRun(a, rows, run, g0, done);
      next, done' := None, done + [run];
    }
  }

  /** `color_obstructions`: scans the columns `[padding_right, width -
      padding_left)` and flattens each run of columns with data in the band
      `[padding_bottom, padding_bottom + color_height)`. */
  method ColorObstructions(a: array2<Rgba>, paddingLeft: nat, paddingBottom: nat, paddingRight: nat, colorHeight: int)
    modifies a
    ensures Cells(a) == ApplyRuns(old(Cells(a)), Slice(paddingBottom, paddingBottom + colorHeight),
      ObstructionRuns(old(Cells(a)), paddingLeft, paddingBottom, paddingRight, colorHeight))
  {
    ghost var g0 := Cells(a);
    if a.Length0 == 0 {
      return;
    }
    var rows := Slice(paddingBottom, paddingBottom + colorHeight);
    var rs := Clip(rows, a.Length0);
    var hi := a.Length1 - paddingLeft;
    assert rs == Band(g0, paddingBottom, colorHeight) && hi == Width(g0) - paddingLeft;
    ghost var runs := ScanRuns(g0, rs, paddingRight, hi, None);
    assert runs == ObstructionRuns(g0, paddingLeft, paddingBottom, paddingRight, colorHeight);
    ghost var done: seq<Span> := [];
    var start: Option<nat> := None;
    var i := paddingRight;
    while i < hi
      invariant paddingRight <= i
      invariant start.Some? ==> start.value < i <= hi && rs.lo < rs.hi
      invariant Cells(a) == ApplyRuns(g0, rows, done)
      invariant forall k :: 0 <= k < |done| ==> done[k].hi <= i
      invariant runs == done + ScanRuns(g0, rs, i, hi, start)
    {
      start, done := ScanColumn(a, rows, rs, i, hi, start, g0, done, runs);
      i := i + 1;
    }
    ghost var tail := ScanRuns(g0, rs, i, hi, start);
    assert tail == if start.Some? && start.value != 0 then [Span(start.value, i - 1)] else [];
    if start.Some? && start.value != 0 {
      var run := Span(start.value, i - 1);
      FlattenRun(a, rows, run, g0, done);
      done := done + [run];
    }
    assert done == runs;
  }

  /** `numpy.fliplr`: each row read right to left. */
  function MirrorGrid(g: Grid): (h: Grid)
    ensures |h| == |g| && forall r :: 0 <= r < |g| ==> h[r] == Reverse(g[r])
  {
    seq(|g|, r requires 0 <= r < |g| => Reverse(g[r]))
  }

  /** Mirroring twice gives back the grid. */
  lemma MirrorInvolution(g: Grid)
    ensures MirrorGrid(MirrorGrid(g)) == g
  {
    forall r | 0 <= r < |g| ensures MirrorGrid(MirrorGrid(g))[r] == g[r] {
      ReverseInvolution(g[r]);
    }
  }

  method MirrorColumns(a: array2<Rgba>) returns (m: array2<Rgba>)
    ensures Cells(m) == MirrorGrid(Cells(a))
  {
    var w := a.Length1;
    m := new Rgba[a.Length0, w]((r, c) reads a =>
      if 0 <= r < a.Length0 && 0 <= c < w then a[r, w - 1 - c] else Transparent);
    GridsEqual(Cells(m), MirrorGrid(Cells(a)));
  }
}
