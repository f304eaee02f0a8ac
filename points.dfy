/** `AirGapPoints` of `airgap.py`: a classified point cloud between two
    end points, from which the contour, the depth profile and the
    background image of a cross-section are derived. The rotation that
    aligns the section with the x axis (`rotate_points`, `rotate_ends`) is
    a parameter: `rotate` turns a point clockwise by the section's angle
    about the cloud's minimum corner, `unrotate` turns it back. */
module Points {
  import opened Common
  import opened Raster
  import opened Compositor

  /** One channel of a 16-bit LAS colour. */
  newtype word = x: int | 0 <= x < 65536

  datatype LidarPoint = LidarPoint(at: Vec3, red: word, green: word, blue: word)

  /** The Python errors the pipeline can stop with, and a loop that did not
      finish within the model's fuel. */
  datatype Failure =
    | DivisionByZero   // ZeroDivisionError
    | EmptyMinimum     // numpy.min of an empty selection
    | NotFinite        // int() of an infinite or NaN value
    | UnboundHeight    // the contour's first bin has no point
    | UnboundScanRow   // average_and_color on a band with no rows
    | OutOfFuel

  datatype Outcome<T> = Done(value: T) | Failed(why: Failure)

  /** The step `refine_ends` moves an end by. */
  const Granularity: real := 0.1

  function Turn(rotate: Vec3 -> Vec3, v: Vec2): Vec2
  {
    var p := rotate(Vec3(v.x, v.y, 0.0));
    Vec2(p.x, p.y)
  }

  function TurnEnds(rotate: Vec3 -> Vec3, e: Ends): Ends
  {
    Ends(Turn(rotate, e.west), Turn(rotate, e.east))
  }

  function Xyz(cloud: seq<LidarPoint>, rotate: Vec3 -> Vec3): (pts: seq<Vec3>)
    ensures |pts| == |cloud| && forall k :: 0 <= k < |cloud| ==> pts[k] == rotate(cloud[k].at)
  {
    seq(|cloud|, k requires 0 <= k < |cloud| => rotate(cloud[k].at))
  }

  function Abs(x: real): real
  {
    if x < 0.0 then -x else x
  }

  // ---------------------------------------------------------------- refine_ends

  /** The band `refine_ends` looks at from x: [x, x + granularity). */
  predicate InBand(p: Vec3, x: real)
  {
    x <= p.x < x + Granularity
  }

  /** `numpy.min` of the heights in the band; None where it raises. */
  function BandMin(pts: seq<Vec3>, x: real): (m: Option<real>)
    ensures m.None? <==> forall k :: 0 <= k < |pts| ==> !InBand(pts[k], x)
    ensures m.Some? ==> exists k :: 0 <= k < |pts| && InBand(pts[k], x) && pts[k].z == m.value
    ensures m.Some? ==> forall k :: 0 <= k < |pts| && InBand(pts[k], x) ==> m.value <= pts[k].z
  {
    if pts == [] then None
    else
      var n := |pts| - 1;
      var p := pts[n];
      assert forall k :: 0 <= k < n ==> pts[..n][k] == pts[k];
      var rest := BandMin(pts[..n], x);
      if !InBand(p, x) then rest
      else if rest.None? || p.z < rest.value then Some(p.z)
      else rest
  }

  /** Where a scan for a band whose lowest point clears `minimumHeight`
      stops: at a clear band after `moves` moves, at an empty band (where
      `numpy.min` raises), or nowhere within the fuel. */
  datatype Scan = Reached(at: real, moves: nat) | NoPointsAt(at: real) | Exhausted

  /** One `while not refinement_condition(numpy.min(band))` loop of
      `refine_ends`, starting at x and moving by `delta`. */
  function Search(pts: seq<Vec3>, x: real, delta: real, minimumHeight: real, fuel: nat): Scan
    decreases fuel
  {
    if fuel == 0 then Exhausted
    else
      match BandMin(pts, x)
      case None => NoPointsAt(x)
      case Some(m) =>
        if m >= minimumHeight then Reached(x, 0)
        else Later(Search(pts, x + delta, delta, minimumHeight, fuel - 1), 1)
  }

  /** The same outcome, reached after k more moves. */
  function Later(s: Scan, k: nat): Scan
  {
    if s.Reached? then Reached(s.at, s.moves + k) else s
  }

  lemma LaterLater(s: Scan, j: nat, k: nat)
    ensures Later(Later(s, j), k) == Later(s, j + k)
  {
  }

  function Position(x: real, delta: real, j: nat): real
  {
    x + j as real * delta
  }

  lemma PositionNext(x: real, delta: real, j: nat)
    ensures Position(x + delta, delta, j) == Position(x, delta, j + 1)
  {
    assert (j + 1) as real * delta == j as real * delta + delta;
  }

  predicate BandLow(pts: seq<Vec3>, at: real, minimumHeight: real)
  {
    var m := BandMin(pts, at);
    m.Some? && m.value < minimumHeight
  }

  predicate BandClear(pts: seq<Vec3>, at: real, minimumHeight: real)
  {
    var m := BandMin(pts, at);
    m.Some? && m.value >= minimumHeight
  }

  /** A finished search moved n times, past n bands that each hold a point
      below `minimumHeight`, and stopped either at the first band all of
      whose points clear it or at the first empty band. */
  lemma {:induction false} SearchMeaning(pts: seq<Vec3>, x: real, delta: real, minimumHeight: real, fuel: nat)
    returns (n: nat)
    requires !Search(pts, x, delta, minimumHeight, fuel).Exhausted?
    ensures forall j :: 0 <= j < n ==> BandLow(pts, Position(x, delta, j), minimumHeight)
    ensures Search(pts, x, delta, minimumHeight, fuel).Reached? ==>
      Search(pts, x, delta, minimumHeight, fuel) == Reached(Position(x, delta, n), n)
      && BandClear(pts, Position(x, delta, n), minimumHeight)
    ensures Search(pts, x, delta, minimumHeight, fuel).NoPointsAt? ==>
      Search(pts, x, delta, minimumHeight, fuel) == NoPointsAt(Position(x, delta, n))
      && forall k :: 0 <= k < |pts| ==> !InBand(pts[k], Position(x, delta, n))
    decreases fuel
  {
    assert Position(x, delta, 0) == x;
    if !BandLow(pts, x, minimumHeight) {
      n := 0;
    } else {
      var next := x + delta;
      var n' := SearchMeaning(pts, next, delta, minimumHeight, fuel - 1);
      assert Search(pts, x, delta, minimumHeight, fuel) == Later(Search(pts, next, delta, minimumHeight, fuel - 1), 1);
      n := n' + 1;
      PositionNext(x, delta, n');
      forall j | 0 <= j < n ensures BandLow(pts, Position(x, delta, j), minimumHeight) {
        if j > 0 {
          PositionNext(x, delta, j - 1);
        }
      }
    }
  }

  /** The search as the source runs it. */
  method Advance(pts: seq<Vec3>, x: real, delta: real, minimumHeight: real, fuel: nat) returns (s: Scan)
    ensures s == Search(pts, x, delta, minimumHeight, fuel)
  {
    var at: real, left: nat, moves: nat := x, fuel, 0;
    while true
      invariant left <= fuel
      invariant Search(pts, x, delta, minimumHeight, fuel) == Later(Search(pts, at, delta, minimumHeight, left), moves)
      decreases left
    {
      if left == 0 {
        return Exhausted;
      }
      var m := BandMin(pts, at);
      if m.None? {
        return NoPointsAt(at);
      }
      if m.value >= minimumHeight {
        return Reached(at, moves);
      }
      assert Search(pts, at, delta, minimumHeight, left) == Later(Search(pts, at + delta, delta, minimumHeight, left - 1), 1);
      LaterLater(Search(pts, at + delta, delta, minimumHeight, left - 1), 1, moves);
      at, left, moves := at + delta, left - 1, moves + 1;
    }
  }

  function SearchFailure(s: Scan): Failure
  {
    if s.NoPointsAt? then EmptyMinimum else OutOfFuel
  }

  /** `refine_ends` on the rotated ends: the western end moves east and the
      eastern end moves west (each band looked at is the one just east of
      the end) until the band's lowest point clears `minimumHeight`. */
  function Refine(pts: seq<Vec3>, rEnds: Ends, minimumHeight: real, fuel: nat): Outcome<Ends>
  {
    var w := Search(pts, rEnds.west.x, Granularity, minimumHeight, fuel);
    var e := Search(pts, rEnds.east.x, -Granularity, minimumHeight, fuel);
    if !w.Reached? then Failed(SearchFailure(w))
    else if !e.Reached? then Failed(SearchFailure(e))
    else Done(Ends(Vec2(w.at, rEnds.west.y), Vec2(e.at, rEnds.east.y)))
  }

  /** Refined ends only move inward, keep their y, and each ends on a band
      whose lowest point clears `minimumHeight`. */
  lemma RefineMeaning(pts: seq<Vec3>, rEnds: Ends, minimumHeight: real, fuel: nat)
    requires Refine(pts, rEnds, minimumHeight, fuel).Done?
    ensures var r := Refine(pts, rEnds, minimumHeight, fuel).value;
      && rEnds.west.x <= r.west.x && r.east.x <= rEnds.east.x
      && r.west.y == rEnds.west.y && r.east.y == rEnds.east.y
      && BandClear(pts, r.west.x, minimumHeight) && BandClear(pts, r.east.x, minimumHeight)
  {
    var nw := SearchMeaning(pts, rEnds.west.x, Granularity, minimumHeight, fuel);
    var ne := SearchMeaning(pts, rEnds.east.x, -Granularity, minimumHeight, fuel);
    assert nw as real * Granularity >= 0.0;
    assert ne as real * -Granularity <= 0.0;
  }

  // ------------------------------------------------------------------ contour

  /** A point's height with the index of the contour bin it falls in. */
  datatype BinnedHeight = BinnedHeight(bin: int, height: real)

  /** The points between the rotated ends, binned by `floor((x - west) /
      step)`. A zero step divides 0 by 0 in numpy, and NaN matches no bin. */
  function ContourBins(pts: seq<Vec3>, rEnds: Ends, step: real): seq<BinnedHeight>
  {
    if pts == [] || step == 0.0 then []
    else
      var p := pts[|pts| - 1];
      ContourBins(pts[..|pts| - 1], rEnds, step)
        + (if rEnds.west.x <= p.x <= rEnds.east.x
           then [BinnedHeight(((p.x - rEnds.west.x) / step).Floor, p.z)] else [])
  }

  /** `numpy.min` of the heights in bin i; None when the bin is empty. */
  function BinMin(bins: seq<BinnedHeight>, i: int): (m: Option<real>)
    ensures m.None? <==> forall k :: 0 <= k < |bins| ==> bins[k].bin != i
    ensures m.Some? ==> exists k :: 0 <= k < |bins| && bins[k].bin == i && bins[k].height == m.value
    ensures m.Some? ==> forall k :: 0 <= k < |bins| && bins[k].bin == i ==> m.value <= bins[k].height
  {
    if bins == [] then None
    else
      var n := |bins| - 1;
      var b := bins[n];
      assert forall k :: 0 <= k < n ==> bins[..n][k] == bins[k];
      var rest := BinMin(bins[..n], i);
      if b.bin != i then rest
      else if rest.None? || b.height < rest.value then Some(b.height)
      else rest
  }

  /** Heights under the minimum are flattened to 0. */
  function Floor(h: real, minimumHeight: real): (f: real)
    ensures f == 0.0 || f >= minimumHeight
  {
    if h < minimumHeight then 0.0 else h
  }

  /** The heights of the first n contour points: a bin's lowest point, or,
      for a bin with no point, the height kept from the bin before; None
      when the very first bin has no point (the height is unbound). */
  function HeightsUpTo(bins: seq<BinnedHeight>, n: nat, minimumHeight: real): (hs: Option<seq<real>>)
    ensures hs.Some? ==> |hs.value| == n
  {
    if n == 0 then Some([])
    else
      match HeightsUpTo(bins, n - 1, minimumHeight)
      case None => None
      case Some(prev) =>
        match BinMin(bins, n - 1)
        case Some(m) => Some(prev + [Floor(m, minimumHeight)])
        case None => if n == 1 then None else Some(prev + [Floor(prev[n - 2], minimumHeight)])
  }

  /** One more bin: the heights of the first n + 1 contour points. */
  lemma HeightsStep(bins: seq<BinnedHeight>, n: nat, minimumHeight: real, hs: seq<real>)
    requires HeightsUpTo(bins, n, minimumHeight) == Some(hs)
    ensures HeightsUpTo(bins, n + 1, minimumHeight)
      == match BinMin(bins, n)
         case Some(m) => Some(hs + [Floor(m, minimumHeight)])
         case None => if n == 0 then None else Some(hs + [Floor(hs[n - 1], minimumHeight)])
  {
  }

  /** The contour heights exist exactly when the first bin has a point. */
  lemma {:induction false} HeightsDefined(bins: seq<BinnedHeight>, n: nat, minimumHeight: real)
    ensures HeightsUpTo(bins, n, minimumHeight).None? <==> n > 0 && BinMin(bins, 0).None?
  {
    if n > 1 {
      HeightsDefined(bins, n - 1, minimumHeight);
    }
  }

  /** Each contour height is 0 or at least the minimum; a bin with points
      gives its lowest point (flattened to 0 below the minimum); a bin with
      none repeats the height before it. */
  lemma {:induction false} HeightsMeaning(bins: seq<BinnedHeight>, n: nat, minimumHeight: real, hs: seq<real>)
    requires HeightsUpTo(bins, n, minimumHeight) == Some(hs)
    ensures forall i :: 0 <= i < n ==> hs[i] == 0.0 || hs[i] >= minimumHeight
    ensures forall i :: 0 <= i < n && BinMin(bins, i).Some? ==> hs[i] == Floor(BinMin(bins, i).value, minimumHeight)
    ensures forall i :: 0 < i < n && BinMin(bins, i).None? ==> hs[i] == hs[i - 1]
  {
    if n > 0 {
      var prev := HeightsUpTo(bins, n - 1, minimumHeight).value;
      HeightsMeaning(bins, n - 1, minimumHeight, prev);
      HeightsStep(bins, n - 1, minimumHeight, prev);
      var m := BinMin(bins, n - 1);
      var last := if m.None? then Floor(prev[n - 2], minimumHeight) else Floor(m.value, minimumHeight);
      assert hs == prev + [last];
      forall i | 0 <= i < n - 1 ensures hs[i] == prev[i] {
      }
      assert hs[n - 1] == last;
      forall i | 0 < i < n && BinMin(bins, i).None? ensures hs[i] == hs[i - 1] {
        if i == n - 1 {
          assert last == Floor(prev[n - 2], minimumHeight) == prev[n - 2];
        }
      }
    }
  }

  /** Where the i-th contour point lies on the (possibly refined) section. */
  function ContourPosition(ends: Ends, steps: nat, i: nat): Vec2
    requires steps > 0
  {
    var dx := (ends.east.x - ends.west.x) / steps as real;
    var dy := (ends.east.y - ends.west.y) / steps as real;
    Vec2(ends.west.x + i as real * dx, ends.west.y + i as real * dy)
  }

  /** The contour runs from the western end towards the eastern one: the
      first point is the western end and a step past the last lands on the
      eastern end. */
  lemma ContourEndpoints(ends: Ends, steps: nat)
    requires steps > 0
    ensures ContourPosition(ends, steps, 0) == ends.west
    ensures ContourPosition(ends, steps, steps) == ends.east
  {
  }

  /** The geographic coordinates (`project` is the UTM to WGS 84 transform)
      with the heights as third component. */
  function Coordinates(ends: Ends, steps: nat, hs: seq<real>, project: Vec2 -> Vec2): (cs: seq<Vec3>)
    requires steps > 0
    ensures |cs| == |hs|
    ensures forall i :: 0 <= i < |hs| ==>
      cs[i] == Vec3(project(ContourPosition(ends, steps, i)).x, project(ContourPosition(ends, steps, i)).y, hs[i])
  {
    seq(|hs|, i requires 0 <= i < |hs| =>
      var p := project(ContourPosition(ends, steps, i));
      Vec3(p.x, p.y, hs[i]))
  }

  lemma CoordinatesStep(ends: Ends, steps: nat, hs: seq<real>, h: real, project: Vec2 -> Vec2)
    requires steps > 0
    ensures Coordinates(ends, steps, hs + [h], project)
      == Coordinates(ends, steps, hs, project)
         + [Vec3(project(ContourPosition(ends, steps, |hs|)).x, project(ContourPosition(ends, steps, |hs|)).y, h)]
  {
  }

  function Oriented<T>(dir: Direction, s: seq<T>): seq<T>
  {
    if dir == EastToWest then Reverse(s) else s
  }

  /** The `progress_bar` (shown or not) and `bar_steps` arguments of
      `create_contour` and `create_image`. */
  datatype Progress = Progress(shown: bool, barSteps: nat)

  /** A loop over `n` items that updates a shown progress bar stops with
      ZeroDivisionError on its second item when `update_interval =
      int(n / bar_steps)` is zero: `i % update_interval` runs once `i != 0`. */
  predicate TicksByZero(n: nat, progress: Progress)
    requires progress.barSteps > 0
  {
    progress.shown && n >= 2 && n / progress.barSteps == 0
  }

  /** The interval is zero exactly when there are fewer items than bar
      steps, so the crash hits every shown loop of 2 to `bar_steps - 1`
      items. */
  lemma TicksByZeroMeaning(n: nat, progress: Progress)
    requires progress.barSteps > 0
    ensures TicksByZero(n, progress) <==> progress.shown && 2 <= n < progress.barSteps
  {
    if n >= progress.barSteps {
      assert n / progress.barSteps >= 1;
    }
  }

  /** What `create_contour` writes: the section length and the coordinates. */
  datatype Traced = Traced(length: real, coordinates: seq<Vec3>)

  /** The contour of the rotated cloud between the rotated ends, placed
      along `ends` in geographic coordinates. A zero `bar_steps` stops
      before the loop; an unbound first height stops its first step, before
      the progress bar's zero interval can stop its second. */
  function Contour(ends: Ends, rEnds: Ends, pts: seq<Vec3>, minimumHeight: real, steps: nat,
                   dir: Direction, project: Vec2 -> Vec2, progress: Progress): Outcome<Traced>
  {
    if steps == 0 || progress.barSteps == 0 then Failed(DivisionByZero)
    else
      var bins := ContourBins(pts, rEnds, (rEnds.east.x - rEnds.west.x) / steps as real);
      match HeightsUpTo(bins, steps, minimumHeight)
      case None => Failed(UnboundHeight)
      case Some(hs) =>
        if TicksByZero(steps, progress) then Failed(DivisionByZero)
        else Done(Traced(Abs(rEnds.east.x - rEnds.west.x), Oriented(dir, Coordinates(ends, steps, hs, project))))
  }

  /** The east-to-west contour is the west-to-east one read backwards. */
  lemma ContourDirections(ends: Ends, rEnds: Ends, pts: seq<Vec3>, minimumHeight: real, steps: nat, project: Vec2 -> Vec2,
                          progress: Progress)
    ensures var we := Contour(ends, rEnds, pts, minimumHeight, steps, WestToEast, project, progress);
      var ew := Contour(ends, rEnds, pts, minimumHeight, steps, EastToWest, project, progress);
      we.Done? == ew.Done?
      && (we.Done? ==>
            && |we.value.coordinates| == steps
            && ew.value.coordinates == Reverse(we.value.coordinates)
            && ew.value.length == we.value.length)
  {
  }

  /** A shown progress bar changes the contour's outcome only for 2 to
      `bar_steps - 1` bins, and then only a contour that would have been
      traced: it stops with ZeroDivisionError instead. */
  lemma ContourProgressEffect(ends: Ends, rEnds: Ends, pts: seq<Vec3>, minimumHeight: real, steps: nat,
                              dir: Direction, project: Vec2 -> Vec2, progress: Progress)
    requires progress.barSteps > 0
    ensures var quiet := Contour(ends, rEnds, pts, minimumHeight, steps, dir, project, progress.(shown := false));
      var shown := Contour(ends, rEnds, pts, minimumHeight, steps, dir, project, progress);
      && (quiet.Failed? || !progress.shown || steps < 2 || steps >= progress.barSteps ==> shown == quiet)
      && (quiet.Done? && progress.shown && 2 <= steps < progress.barSteps ==> shown == Failed(DivisionByZero))
  {
    TicksByZeroMeaning(steps, progress);
    TicksByZeroMeaning(steps, progress.(shown := false));
  }

  // ------------------------------------------------------------------- depths

  /** `data.sample(point, band)`: a raster value and whether it was found. */
  datatype RasterSample = RasterSample(value: real, ok: bool)

  function DepthValue(s: RasterSample, noData: real): real
  {
    if s.value == noData || !s.ok then 0.0 else s.value
  }

  /** One of `steps` equal steps from `from` to `to`. */
  function Step(from: real, to: real, steps: nat): (d: real)
    requires steps > 0
    ensures d * steps as real == to - from
  {
    (to - from) / steps as real
  }

  /** Walking back is the opposite step. */
  lemma StepReversed(from: real, to: real, steps: nat)
    requires steps > 0
    ensures Step(to, from, steps) == -Step(from, to, steps)
  {
    var d, e := Step(from, to, steps), Step(to, from, steps);
    assert (e + d) * steps as real == 0.0;
  }

  /** Where `create_depth` samples the i-th depth: `padding_left` steps
      before `start`, then one step at a time towards `end`. */
  function DepthPosition(start: Vec2, end: Vec2, steps: nat, paddingLeft: nat, i: nat): Vec2
    requires steps > 0
  {
    var dx := Step(start.x, end.x, steps);
    var dy := Step(start.y, end.y, steps);
    Vec2(start.x - dx * paddingLeft as real + i as real * dx, start.y - dy * paddingLeft as real + i as real * dy)
  }

  function DepthProfile(sample: Vec2 -> RasterSample, noData: real, start: Vec2, end: Vec2,
                        steps: nat, paddingLeft: nat, paddingRight: nat): (d: seq<real>)
    requires steps > 0
    ensures |d| == steps + paddingLeft + paddingRight
    ensures forall i :: 0 <= i < |d| ==> d[i] == DepthValue(sample(DepthPosition(start, end, steps, paddingLeft, i)), noData)
  {
    seq(steps + paddingLeft + paddingRight, i requires 0 <= i =>
      DepthValue(sample(DepthPosition(start, end, steps, paddingLeft, i)), noData))
  }

  /** The ends in traversal order. */
  function StartOf(e: Ends, dir: Direction): Vec2
  {
    if dir == WestToEast then e.west else e.east
  }

  function EndOf(e: Ends, dir: Direction): Vec2
  {
    if dir == WestToEast then e.east else e.west
  }

  /** The i-th sample position from the first one and the step. */
  lemma DepthPositionAt(start: Vec2, end: Vec2, steps: nat, paddingLeft: nat, i: nat,
                        dx: real, dy: real, x0: real, y0: real)
    requires steps > 0 && dx == Step(start.x, end.x, steps) && dy == Step(start.y, end.y, steps)
    requires x0 == start.x - dx * paddingLeft as real && y0 == start.y - dy * paddingLeft as real
    ensures DepthPosition(start, end, steps, paddingLeft, i) == Vec2(x0 + i as real * dx, y0 + i as real * dy)
  {
  }

  /** The sampling loop of `create_depth`: `padding_left` steps before
      `start` to `padding_right` steps beyond `end`, reading no-data and
      failed samples as 0. */
  method SampleDepths(sample: Vec2 -> RasterSample, noData: real, start: Vec2, end: Vec2,
                      steps: nat, paddingLeft: nat, paddingRight: nat) returns (values: seq<real>)
    requires steps > 0
    ensures values == DepthProfile(sample, noData, start, end, steps, paddingLeft, paddingRight)
  {
    var dx := Step(start.x, end.x, steps);
    var dy := Step(start.y, end.y, steps);
    var startX := start.x - dx * paddingLeft as real;
    var startY := start.y - dy * paddingLeft as real;
    var total := steps + paddingLeft + paddingRight;
    values := [];
    var i := 0;
    while i < total
      invariant 0 <= i <= total
      invariant |values| == i
      invariant forall k :: 0 <= k < i ==> values[k] == DepthValue(sample(DepthPosition(start, end, steps, paddingLeft, k)), noData)
    {
      var at := Vec2(startX + i as real * dx, startY + i as real * dy);
      DepthPositionAt(start, end, steps, paddingLeft, i, dx, dy, startX, startY);
      var s := sample(at);
      var value := if s.value == noData || !s.ok then 0.0 else s.value;
      values := values + [value];
      i := i + 1;
    }
  }

  /** The east-to-west profile is not the west-to-east one reversed: with
      equal padding on both sides, its i-th depth is the west-to-east
      profile's (N - i)-th for 0 < i < N, so it is shifted by one sample and
      its first sample lies one step beyond the west-to-east profile. */
  lemma DepthDirectionsShifted(sample: Vec2 -> RasterSample, noData: real, ends: Ends, steps: nat, padding: nat, i: nat)
    requires steps > 0 && 0 < i < steps + 2 * padding
    ensures var we := DepthProfile(sample, noData, ends.west, ends.east, steps, padding, padding);
      var ew := DepthProfile(sample, noData, ends.east, ends.west, steps, padding, padding);
      ew[i] == we[steps + 2 * padding - i]
  {
    var n := steps + 2 * padding;
    StepReversed(ends.west.x, ends.east.x, steps);
    StepReversed(ends.west.y, ends.east.y, steps);
    var dx, dy := Step(ends.west.x, ends.east.x, steps), Step(ends.west.y, ends.east.y, steps);
    assert ends.east.x == ends.west.x + dx * steps as real;
    assert ends.east.y == ends.west.y + dy * steps as real;
    assert DepthPosition(ends.east, ends.west, steps, padding, i) == DepthPosition(ends.west, ends.east, steps, padding, n - i);
  }

  // -------------------------------------------------------------------- image

  /** `(c / 65536) * 256` stored into a `uint8` cell: the high byte. */
  function EightBit(c: word): (b: byte)
    ensures 256 * b as int <= c as int < 256 * (b as int + 1)
  {
    (c as int / 256) as byte
  }

  function Turned(cloud: seq<LidarPoint>, rotate: Vec3 -> Vec3): (pts: seq<LidarPoint>)
    ensures |pts| == |cloud|
    ensures forall k :: 0 <= k < |cloud| ==> pts[k] == cloud[k].(at := rotate(cloud[k].at))
  {
    seq(|cloud|, k requires 0 <= k < |cloud| => cloud[k].(at := rotate(cloud[k].at)))
  }

  /** The points whose x lies in [lo, hi], in cloud order. */
  function Window(pts: seq<LidarPoint>, lo: real, hi: real): (sel: seq<LidarPoint>)
    ensures forall k :: 0 <= k < |sel| ==> lo <= sel[k].at.x <= hi
  {
    if pts == [] then []
    else
      var n := |pts| - 1;
      Window(pts[..n], lo, hi) + (if lo <= pts[n].at.x <= hi then [pts[n]] else [])
  }

  /** Every point of the window is selected. */
  lemma {:induction false} WindowComplete(pts: seq<LidarPoint>, lo: real, hi: real)
    ensures forall k :: 0 <= k < |pts| && lo <= pts[k].at.x <= hi ==> pts[k] in Window(pts, lo, hi)
  {
    if pts != [] {
      var n := |pts| - 1;
      WindowComplete(pts[..n], lo, hi);
      assert forall k :: 0 <= k < n ==> pts[..n][k] == pts[k];
    }
  }

  /** A window whose upper bound lies below its lower bound is empty. */
  lemma {:induction false} WindowEmpty(pts: seq<LidarPoint>, lo: real, hi: real)
    requires hi < lo
    ensures Window(pts, lo, hi) == []
  {
    if pts != [] {
      WindowEmpty(pts[..|pts| - 1], lo, hi);
    }
  }

  function Xs(sel: seq<LidarPoint>): (xs: seq<real>)
    ensures |xs| == |sel| && forall k :: 0 <= k < |sel| ==> xs[k] == sel[k].at.x
  {
    seq(|sel|, k requires 0 <= k < |sel| => sel[k].at.x)
  }

  function Zs(sel: seq<LidarPoint>): (zs: seq<real>)
    ensures |zs| == |sel| && forall k :: 0 <= k < |sel| ==> zs[k] == sel[k].at.z
  {
    seq(|sel|, k requires 0 <= k < |sel| => sel[k].at.z)
  }

  /** `offset / scale` for a non-negative offset and a positive scale. */
  function Quotient(offset: real, scale: real): (q: real)
    requires offset >= 0.0 && scale > 0.0
    ensures q >= 0.0
    ensures offset == 0.0 ==> q == 0.0
  {
    offset / scale
  }

  /** `numpy.floor` of a non-negative quotient. */
  function Bin(q: real): (b: nat)
    requires q >= 0.0
    ensures b as real <= q < b as real + 1.0
  {
    q.Floor
  }

  /** One selected point as an image cell: x and z measured from their
      minima in units of `scale`, the row raised by the bottom padding. */
  function ToSample(p: LidarPoint, minX: real, minZ: real, scale: real, paddingBottom: nat): (s: Sample)
    requires scale > 0.0 && minX <= p.at.x && minZ <= p.at.z
    ensures s.row >= paddingBottom && s.depth == p.at.y
    ensures p.at.x == minX ==> s.col == 0
    ensures p.at.z == minZ ==> s.row == paddingBottom
  {
    Sample(Bin(Quotient(p.at.x - minX, scale)), Bin(Quotient(p.at.z - minZ, scale)) + paddingBottom, p.at.y,
           EightBit(p.red), EightBit(p.green), EightBit(p.blue))
  }

  function Samples(sel: seq<LidarPoint>, minX: real, minZ: real, scale: real, paddingBottom: nat): (ss: seq<Sample>)
    requires scale > 0.0
    requires forall k :: 0 <= k < |sel| ==> minX <= sel[k].at.x && minZ <= sel[k].at.z
    ensures |ss| == |sel|
    ensures forall k :: 0 <= k < |sel| ==> ss[k] == ToSample(sel[k], minX, minZ, scale, paddingBottom)
  {
    seq(|sel|, k requires 0 <= k < |sel| => ToSample(sel[k], minX, minZ, scale, paddingBottom))
  }

  /** Samples measured from the minima: all rows at or above the padding,
      some sample in column 0 and some on the padding's row. */
  lemma SamplesAnchored(sel: seq<LidarPoint>, scale: real, paddingBottom: nat)
    requires scale > 0.0 && sel != []
    ensures var ss := Samples(sel, MinOf(Xs(sel)).value, MinOf(Zs(sel)).value, scale, paddingBottom);
      && (forall k :: 0 <= k < |ss| ==> ss[k].row >= paddingBottom)
      && (exists k :: 0 <= k < |ss| && ss[k].col == 0)
      && (exists k :: 0 <= k < |ss| && ss[k].row == paddingBottom)
  {
    var xs, zs := Xs(sel), Zs(sel);
    var minX := MinOf(xs).value;
    var minZ := MinOf(zs).value;
    forall k | 0 <= k < |sel| ensures minX <= sel[k].at.x && minZ <= sel[k].at.z {
      assert xs[k] == sel[k].at.x && zs[k] == sel[k].at.z;
    }
    var ss := Samples(sel, minX, minZ, scale, paddingBottom);
    forall k | 0 <= k < |ss| ensures ss[k].row >= paddingBottom {
      assert ss[k] == ToSample(sel[k], minX, minZ, scale, paddingBottom);
    }
    var i :| 0 <= i < |sel| && xs[i] == minX;
    var j :| 0 <= j < |sel| && zs[j] == minZ;
    assert ss[i] == ToSample(sel[i], minX, minZ, scale, paddingBottom) && sel[i].at.x == minX;
    assert ss[j] == ToSample(sel[j], minX, minZ, scale, paddingBottom) && sel[j].at.z == minZ;
  }

  /** The numbers `create_image` derives before drawing. */
  datatype Layout = Layout(scale: real, paddingBottom: nat, colorHeight: int, samples: seq<Sample>)

  /** Metres per pixel: the section's x extent over the image width. */
  function Scale(rEnds: Ends, width: nat): (scale: real)
    requires width > 0
    ensures scale * width as real == rEnds.east.x - rEnds.west.x
    ensures scale > 0.0 <==> rEnds.west.x < rEnds.east.x
    ensures scale == 0.0 <==> rEnds.west.x == rEnds.east.x
  {
    (rEnds.east.x - rEnds.west.x) / width as real
  }

  /** The points between the ends, the window widened by the side paddings. */
  function Selection(pts: seq<LidarPoint>, rEnds: Ends, scale: real, paddingLeft: nat, paddingRight: nat): seq<LidarPoint>
  {
    Window(pts, rEnds.west.x - paddingLeft as real * scale, rEnds.east.x + paddingRight as real * scale)
  }

  /** The sizing part of `create_image` on the rotated points and ends: the
      scale, the bottom padding grown by the maximum depth, the window
      widened by the side paddings, and the binned samples. */
  function ImageLayout(pts: seq<LidarPoint>, rEnds: Ends, width: nat, paddingLeft: nat, paddingBottom: nat,
                       paddingRight: nat, maximumDepth: real, minimumHeight: real): Outcome<Layout>
    requires width > 0 && maximumDepth <= 0.0
  {
    var scale := Scale(rEnds, width);
    if scale == 0.0 then Failed(NotFinite)
    else
      var sel := Selection(pts, rEnds, scale, paddingLeft, paddingRight);
      if sel == [] || scale < 0.0 then Failed(EmptyMinimum)
      else
        var bottom := paddingBottom + Bin(Quotient(-maximumDepth, scale));
        Done(Layout(scale, bottom, TruncToInt(minimumHeight / scale),
                    Samples(sel, MinOf(Xs(sel)).value, MinOf(Zs(sel)).value, scale, bottom)))
  }

  /** A section whose eastern end lies west of its western end selects no
      point, so its negative scale ends in `numpy.min` of nothing. */
  lemma ReversedSectionSelectsNothing(pts: seq<LidarPoint>, rEnds: Ends, width: nat, paddingLeft: nat,
                                      paddingRight: nat)
    requires width > 0 && rEnds.east.x < rEnds.west.x
    ensures Selection(pts, rEnds, Scale(rEnds, width), paddingLeft, paddingRight) == []
  {
    var scale := Scale(rEnds, width);
    var lo := rEnds.west.x - paddingLeft as real * scale;
    var hi := rEnds.east.x + paddingRight as real * scale;
    assert paddingLeft as real * scale <= 0.0 && paddingRight as real * scale <= 0.0;
    assert hi < lo;
    WindowEmpty(pts, lo, hi);
  }

  /** Every sample sits at or above the bottom padding; the westmost point
      lands in column 0 and the lowest one on the first row above the
      padding; colours are the high bytes of the 16-bit channels. */
  lemma ImageLayoutMeaning(pts: seq<LidarPoint>, rEnds: Ends, width: nat, paddingLeft: nat, paddingBottom: nat,
                           paddingRight: nat, maximumDepth: real, minimumHeight: real)
    requires width > 0 && maximumDepth <= 0.0
    requires ImageLayout(pts, rEnds, width, paddingLeft, paddingBottom, paddingRight, maximumDepth, minimumHeight).Done?
    ensures var lay := ImageLayout(pts, rEnds, width, paddingLeft, paddingBottom, paddingRight, maximumDepth, minimumHeight).value;
      && lay.scale == Scale(rEnds, width) && rEnds.west.x < rEnds.east.x
      && lay.paddingBottom >= paddingBottom
      && |lay.samples| > 0
      && (forall k :: 0 <= k < |lay.samples| ==> lay.samples[k].row >= lay.paddingBottom)
      && (exists k :: 0 <= k < |lay.samples| && lay.samples[k].col == 0)
      && (exists k :: 0 <= k < |lay.samples| && lay.samples[k].row == lay.paddingBottom)
  {
    var scale := Scale(rEnds, width);
    var sel := Selection(pts, rEnds, scale, paddingLeft, paddingRight);
    var lay := ImageLayout(pts, rEnds, width, paddingLeft, paddingBottom, paddingRight, maximumDepth, minimumHeight).value;
    assert scale > 0.0 && sel != [];
    SamplesAnchored(sel, scale, lay.paddingBottom);
  }

  /** `average_and_color` stops with an unbound scan row: a band of no rows
      over a non-empty column range. */
  predicate ScanUnbound(g: Grid, rows: Slice, cols: Slice)
  {
    Clip(rows, |g|).lo == Clip(rows, |g|).hi && Clip(cols, Width(g)).lo < Clip(cols, Width(g)).hi
  }

  ghost function RasterGrid(samples: seq<Sample>, dir: Direction): (g: Grid)
    requires |samples| > 0
    ensures |g| == RowExtent(samples) + 1 && Rectangular(g) && Width(g) == ColExtent(samples) + 1
  {
    seq(RowExtent(samples) + 1, r requires 0 <= r =>
      seq(ColExtent(samples) + 1, c requires 0 <= c => Rasterized(samples, dir, r, c)))
  }

  /** The two `average_and_color` calls of `create_image`: the band at the
      left padding, then the band at the right padding, both as wide as the
      rasterised grid. */
  ghost function Padded(g0: Grid, rows: Slice, paddingLeft: nat, paddingRight: nat): (r: Outcome<Grid>)
    requires Rectangular(g0)
    ensures r.Done? ==> |r.value| == |g0| && Rectangular(r.value) && Width(r.value) == Width(g0)
  {
    var w := Width(g0);
    var left := Slice(0, paddingLeft);
    var right := Slice(w - paddingRight, w);
    if ScanUnbound(g0, rows, left) then Failed(UnboundScanRow)
    else
      var g1 := AverageAndColorGrid(g0, rows, left, true, 255);
      AverageAndColorShape(g0, rows, left, true, 255);
      if ScanUnbound(g1, rows, right) then Failed(UnboundScanRow)
      else
        AverageAndColorShape(g1, rows, right, true, 255);
        Done(AverageAndColorGrid(g1, rows, right, true, 255))
  }

  /** Once the left padding has been applied, the outcome of both paddings
      is the outcome of the right one on the result. */
  lemma PaddedAfterLeft(g0: Grid, g1: Grid, rows: Slice, paddingLeft: nat, paddingRight: nat)
    requires Rectangular(g0) && !ScanUnbound(g0, rows, Slice(0, paddingLeft))
    requires g1 == AverageAndColorGrid(g0, rows, Slice(0, paddingLeft), true, 255)
    ensures Rectangular(g1) && |g1| == |g0| && Width(g1) == Width(g0)
    ensures var right := Slice(Width(g0) - paddingRight, Width(g0));
      Padded(g0, rows, paddingLeft, paddingRight)
        == if ScanUnbound(g1, rows, right) then Failed(UnboundScanRow)
           else Done(AverageAndColorGrid(g1, rows, right, true, 255))
  {
    AverageAndColorShape(g0, rows, Slice(0, paddingLeft), true, 255);
  }

  /** The drawing part of `create_image`: rasterise, flatten the band at the
      left and right paddings, flatten the obstructions, and mirror a
      west-to-east picture. */
  ghost function ImageGrid(lay: Layout, paddingLeft: nat, paddingRight: nat, dir: Direction): Outcome<Grid>
    requires |lay.samples| > 0
  {
    PaddedImage(RasterGrid(lay.samples, dir), lay.paddingBottom, lay.colorHeight, paddingLeft, paddingRight, dir)
  }

  /** The steps of `create_image` after the rasterisation. */
  ghost function PaddedImage(g0: Grid, paddingBottom: nat, colorHeight: int, paddingLeft: nat, paddingRight: nat,
                             dir: Direction): Outcome<Grid>
    requires Rectangular(g0)
  {
    match Padded(g0, Slice(paddingBottom, paddingBottom + colorHeight), paddingLeft, paddingRight)
    case Failed(why) => Failed(why)
    case Done(g2) => Done(Finished(g2, paddingBottom, colorHeight, paddingLeft, paddingRight, dir))
  }

  /** The steps of `create_image` after the paddings: the obstructions
      flattened, then a west-to-east picture mirrored. */
  ghost function Finished(g2: Grid, paddingBottom: nat, colorHeight: int, paddingLeft: nat, paddingRight: nat, dir: Direction): Grid
    requires Rectangular(g2)
  {
    var rows := Slice(paddingBottom, paddingBottom + colorHeight);
    var g3 := ApplyRuns(g2, rows, ObstructionRuns(g2, paddingLeft, paddingBottom, paddingRight, colorHeight));
    if dir == WestToEast then MirrorGrid(g3) else g3
  }

  /** The grid sizing and `find_color` pass of `create_image`. */
  method RasterImage(samples: seq<Sample>, dir: Direction) returns (grid: array2<Rgba>)
    requires |samples| > 0
    ensures fresh(grid) && grid.Length0 > 0
    ensures Cells(grid) == RasterGrid(samples, dir)
  {
    grid := NewColorGrid(samples, dir);
    GridsEqual(Cells(grid), RasterGrid(samples, dir));
  }

  /** One `average_and_color` call of `create_image` on a grid with rows:
      it fails exactly when the band has no rows but the columns do. */
  method PadBand(grid: array2<Rgba>, rows: Slice, cols: Slice) returns (ok: bool)
    requires grid.Length0 > 0
    modifies grid
    ensures ok == !ScanUnbound(old(Cells(grid)), rows, cols)
    ensures ok ==> Cells(grid) == AverageAndColorGrid(old(Cells(grid)), rows, cols, true, 255)
  {
    ok := AverageAndColor(grid, rows, cols, true, 255);
  }

  /** Both padding calls of `create_image`, the second stopped by a failed
      first. */
  method PadSides(grid: array2<Rgba>, rows: Slice, paddingLeft: nat, paddingRight: nat) returns (ok: bool)
    requires grid.Length0 > 0
    modifies grid
    ensures ok == Padded(old(Cells(grid)), rows, paddingLeft, paddingRight).Done?
    ensures ok ==> Cells(grid) == Padded(old(Cells(grid)), rows, paddingLeft, paddingRight).value
  {
    ghost var g0 := Cells(grid);
    var w := grid.Length1;
    assert Width(g0) == w;
    ok := PadBand(grid, rows, Slice(0, paddingLeft));
    if ok {
      ghost var g1 := Cells(grid);
      PaddedAfterLeft(g0, g1, rows, paddingLeft, paddingRight);
      ok := PadBand(grid, rows, Slice(w - paddingRight, w));
    }
  }

  /** The drawing part of `create_image` on a computed layout. */
  method DrawImage(lay: Layout, paddingLeft: nat, paddingRight: nat, dir: Direction)
    returns (r: Outcome<array2<Rgba>>)
    requires |lay.samples| > 0
    ensures ImageGrid(lay, paddingLeft, paddingRight, dir).Failed? ==>
      r == Failed(ImageGrid(lay, paddingLeft, paddingRight, dir).why)
    ensures ImageGrid(lay, paddingLeft, paddingRight, dir).Done? ==>
      r.Done? && Cells(r.value) == ImageGrid(lay, paddingLeft, paddingRight, dir).value
  {
    var grid := RasterImage(lay.samples, dir);
    r := PadAndFinish(grid, lay.paddingBottom, lay.colorHeight, paddingLeft, paddingRight, dir);
  }

  /** The steps of `create_image` after the rasterisation, on the grid. */
  method PadAndFinish(grid: array2<Rgba>, paddingBottom: nat, colorHeight: int, paddingLeft: nat, paddingRight: nat,
                      dir: Direction) returns (r: Outcome<array2<Rgba>>)
    requires grid.Length0 > 0
    modifies grid
    ensures PaddedImage(old(Cells(grid)), paddingBottom, colorHeight, paddingLeft, paddingRight, dir).Failed? ==>
      r == Failed(UnboundScanRow)
    ensures PaddedImage(old(Cells(grid)), paddingBottom, colorHeight, paddingLeft, paddingRight, dir).Done? ==>
      r.Done? && Cells(r.value) == PaddedImage(old(Cells(grid)), paddingBottom, colorHeight, paddingLeft, paddingRight, dir).value
  {
    ghost var g0 := Cells(grid);
    var rows := Slice(paddingBottom, paddingBottom + colorHeight);
    var ok := PadSides(grid, rows, paddingLeft, paddingRight);
    if !ok {
      return Failed(UnboundScanRow);
    }
    ghost var g2 := Cells(grid);
    assert Padded(g0, rows, paddingLeft, paddingRight) == Done(g2);
    var m := FinishImage(grid, paddingBottom, colorHeight, paddingLeft, paddingRight, dir);
    r := Done(m);
  }

  /** The obstruction flattening and the orientation of `create_image`. */
  method FinishImage(grid: array2<Rgba>, paddingBottom: nat, colorHeight: int, paddingLeft: nat, paddingRight: nat,
                     dir: Direction) returns (m: array2<Rgba>)
    modifies grid
    ensures Cells(m) == Finished(old(Cells(grid)), paddingBottom, colorHeight, paddingLeft, paddingRight, dir)
  {
    ghost var g2 := Cells(grid);
    ColorObstructions(grid, paddingLeft, paddingBottom, paddingRight, colorHeight);
    ghost var g3 := Cells(grid);
    assert g3 == ApplyRuns(g2, Slice(paddingBottom, paddingBottom + colorHeight),
      ObstructionRuns(g2, paddingLeft, paddingBottom, paddingRight, colorHeight));
    m := Orient(grid, dir);
    assert Cells(m) == if dir == WestToEast then MirrorGrid(g3) else g3;
  }

  /** The last step of `create_image`: the west-to-east picture is the
      grid mirrored left to right. */
  method Orient(grid: array2<Rgba>, dir: Direction) returns (m: array2<Rgba>)
    ensures Cells(m) == if dir == WestToEast then MirrorGrid(Cells(grid)) else Cells(grid)
  {
    m := grid;
    if dir == WestToEast {
      m := MirrorColumns(grid);
    }
  }

  /** What `create_image` produces from the rotated points and ends: the
      scale, the grown bottom padding and the pixel grid. */
  datatype Rendering = Rendering(scale: real, paddingBottom: nat, grid: Grid)

  ghost function Rendered(pts: seq<LidarPoint>, rEnds: Ends, width: nat, paddingLeft: nat, paddingBottom: nat,
                          paddingRight: nat, maximumDepth: real, minimumHeight: real, dir: Direction,
                          progress: Progress): Outcome<Rendering>
    requires width > 0 && maximumDepth <= 0.0
  {
    var lay := ImageLayout(pts, rEnds, width, paddingLeft, paddingBottom, paddingRight, maximumDepth, minimumHeight);
    if lay.Failed? then Failed(lay.why)
    else if progress.barSteps == 0 || TicksByZero(|lay.value.samples|, progress) then Failed(DivisionByZero)
    else
      ImageLayoutMeaning(pts, rEnds, width, paddingLeft, paddingBottom, paddingRight, maximumDepth, minimumHeight);
      var img := ImageGrid(lay.value, paddingLeft, paddingRight, dir);
      if img.Failed? then Failed(img.why)
      else Done(Rendering(lay.value.scale, lay.value.paddingBottom, img.value))
  }

  /** A shown progress bar changes the picture's outcome only for a window
      of 2 to `bar_steps - 1` points, and then only a picture that would
      have been drawn: it stops with ZeroDivisionError instead. */
  lemma RenderedProgressEffect(pts: seq<LidarPoint>, rEnds: Ends, width: nat, paddingLeft: nat, paddingBottom: nat,
                               paddingRight: nat, maximumDepth: real, minimumHeight: real, dir: Direction,
                               progress: Progress)
    requires width > 0 && maximumDepth <= 0.0 && progress.barSteps > 0
    ensures var lay := ImageLayout(pts, rEnds, width, paddingLeft, paddingBottom, paddingRight, maximumDepth, minimumHeight);
      var quiet := Rendered(pts, rEnds, width, paddingLeft, paddingBottom, paddingRight, maximumDepth, minimumHeight,
                            dir, progress.(shown := false));
      var shown := Rendered(pts, rEnds, width, paddingLeft, paddingBottom, paddingRight, maximumDepth, minimumHeight,
                            dir, progress);
      && ((lay.Failed? || !progress.shown || |lay.value.samples| < 2 || |lay.value.samples| >= progress.barSteps)
            ==> shown == quiet)
      && (lay.Done? && progress.shown && 2 <= |lay.value.samples| < progress.barSteps ==> shown == Failed(DivisionByZero))
  {
    var lay := ImageLayout(pts, rEnds, width, paddingLeft, paddingBottom, paddingRight, maximumDepth, minimumHeight);
    if lay.Done? {
      TicksByZeroMeaning(|lay.value.samples|, progress);
      TicksByZeroMeaning(|lay.value.samples|, progress.(shown := false));
    }
  }

  /** The picture `create_image` returns, before PIL's 180-degree turn. */
  datatype Picture = Picture(scale: real, paddingBottom: nat, pixels: array2<Rgba>)

  /** A returned picture shows a rendering: same failure, or same numbers
      and the same pixels. */
  ghost predicate Shows(r: Outcome<Picture>, want: Outcome<Rendering>)
    reads if r.Done? then {r.value.pixels} else {}
  {
    match want
    case Failed(why) => r == Failed(why)
    case Done(v) =>
      r.Done? && r.value.scale == v.scale && r.value.paddingBottom == v.paddingBottom && Cells(r.value.pixels) == v.grid
  }

  /** `create_image` after the rotation and refinement of the ends. */
  method RenderImage(pts: seq<LidarPoint>, rEnds: Ends, width: nat, paddingLeft: nat, paddingBottom: nat,
                     paddingRight: nat, maximumDepth: real, minimumHeight: real, dir: Direction, progress: Progress)
    returns (r: Outcome<Picture>)
    requires width > 0 && maximumDepth <= 0.0
    ensures Shows(r, Rendered(pts, rEnds, width, paddingLeft, paddingBottom, paddingRight, maximumDepth, minimumHeight,
                              dir, progress))
  {
    var layout := ImageLayout(pts, rEnds, width, paddingLeft, paddingBottom, paddingRight, maximumDepth, minimumHeight);
    if layout.Failed? {
      return Failed(layout.why);
    }
    var lay := layout.value;
    // `find_color`'s `int(length / bar_steps)`, then its second point.
    if progress.barSteps == 0 {
      return Failed(DivisionByZero);
    }
    var updateInterval := |lay.samples| / progress.barSteps;
    if progress.shown && |lay.samples| >= 2 && updateInterval == 0 {
      return Failed(DivisionByZero);
    }
    ImageLayoutMeaning(pts, rEnds, width, paddingLeft, paddingBottom, paddingRight, maximumDepth, minimumHeight);
    var drawn := DrawImage(lay, paddingLeft, paddingRight, dir);
    if drawn.Failed? {
      return Failed(drawn.why);
    }
    r := Done(Picture(lay.scale, lay.paddingBottom, drawn.value));
  }

  // -------------------------------------------------------------------- class

  /** The contour loop of `create_contour`: one height per bin, the height
      variable carried over bins with no point, each placed at its
      position along the section. */
  method TraceHeights(bins: seq<BinnedHeight>, ends: Ends, steps: nat, minimumHeight: real, project: Vec2 -> Vec2)
    returns (r: Option<seq<Vec3>>)
    requires steps > 0
    ensures r.Some? == HeightsUpTo(bins, steps, minimumHeight).Some?
    ensures r.Some? ==> r.value == Coordinates(ends, steps, HeightsUpTo(bins, steps, minimumHeight).value, project)
  {
    var coordinates: seq<Vec3> := [];
    ghost var hs: seq<real> := [];
    var height: Option<real> := None;
    var i := 0;
    while i < steps
      invariant 0 <= i <= steps
      invariant HeightsUpTo(bins, i, minimumHeight) == Some(hs)
      invariant coordinates == Coordinates(ends, steps, hs, project)
      invariant height == if i == 0 then None else Some(hs[i - 1])
    {
      HeightsStep(bins, i, minimumHeight, hs);
      var group := BinMin(bins, i);
      if group.Some? {
        height := group;
      }
      if height.None? {
        HeightsDefined(bins, steps, minimumHeight);
        return None;
      }
      var h := Floor(height.value, minimumHeight);
      height := Some(h);
      var p := project(ContourPosition(ends, steps, i));
      CoordinatesStep(ends, steps, hs, h, project);
      coordinates := coordinates + [Vec3(p.x, p.y, h)];
      hs := hs + [h];
      i := i + 1;
    }
    r := Some(coordinates);
  }

  class AirGapPoints {
    const cloud: seq<LidarPoint>
    var ends: Ends
    var refinedEnds: bool
    var maximumDepth: real
    var contour: seq<Vec3>
    var depths: seq<real>

    constructor (cloud: seq<LidarPoint>, westernEnd: Vec2, easternEnd: Vec2)
      ensures this.cloud == cloud && ends == Ends(westernEnd, easternEnd)
      ensures !refinedEnds && maximumDepth == 0.0 && contour == [] && depths == []
    {
      this.cloud := cloud;
      ends := Ends(westernEnd, easternEnd);
      refinedEnds := false;
      maximumDepth := 0.0;
      contour := [];
      depths := [];
    }

    /** `refine_ends`: on success the refined ends, turned back, become the
        section's ends; a failure leaves the object as it was. */
    method RefineEnds(pts: seq<Vec3>, rEnds: Ends, minimumHeight: real, unrotate: Vec3 -> Vec3, fuel: nat)
      returns (r: Outcome<Ends>)
      modifies this`ends, this`refinedEnds
      ensures r == Refine(pts, rEnds, minimumHeight, fuel)
      ensures r.Done? ==> ends == TurnEnds(unrotate, r.value) && refinedEnds
      ensures r.Failed? ==> ends == old(ends) && refinedEnds == old(refinedEnds)
    {
      var w := Advance(pts, rEnds.west.x, Granularity, minimumHeight, fuel);
      if !w.Reached? {
        return Failed(SearchFailure(w));
      }
      var e := Advance(pts, rEnds.east.x, -Granularity, minimumHeight, fuel);
      if !e.Reached? {
        return Failed(SearchFailure(e));
      }
      var refined := Ends(Vec2(w.at, rEnds.west.y), Vec2(e.at, rEnds.east.y));
      ends := TurnEnds(unrotate, refined);
      refinedEnds := true;
      r := Done(refined);
    }

    /** The contour step of `create_contour`: the bins of the rotated
        cloud, then the heights placed along the section. */
    method TraceContour(pts: seq<Vec3>, rEnds: Ends, minimumHeight: real, steps: nat,
                        dir: Direction, project: Vec2 -> Vec2, progress: Progress) returns (r: Outcome<real>)
      modifies this`contour
      ensures var c := Contour(ends, rEnds, pts, minimumHeight, steps, dir, project, progress);
        && (c.Done? ==> r == Done(c.value.length) && contour == c.value.coordinates)
        && (c.Failed? ==> r == Failed(c.why) && contour == old(contour))
    {
      if steps == 0 || progress.barSteps == 0 {
        return Failed(DivisionByZero);
      }
      var bins := ContourBins(pts, rEnds, (rEnds.east.x - rEnds.west.x) / steps as real);
      var updateInterval := steps / progress.barSteps;
      var coordinates := TraceHeights(bins, ends, steps, minimumHeight, project);
      if coordinates.None? {
        return Failed(UnboundHeight);
      }
      // The first step cannot tick; the second one takes `1 % updateInterval`.
      if progress.shown && steps >= 2 && updateInterval == 0 {
        return Failed(DivisionByZero);
      }
      contour := Oriented(dir, coordinates.value);
      r := Done(Abs(rEnds.east.x - rEnds.west.x));
    }

    /** `create_contour`: rotates the cloud and the ends, refines the ends
        when asked (this updates them), then traces the contour along the
        current ends. The angle `atan(dy/dx)` divides by zero for a section
        running due north. */
    method CreateContour(minimumHeight: real, steps: nat, refine: bool, dir: Direction,
                         rotate: Vec3 -> Vec3, unrotate: Vec3 -> Vec3, project: Vec2 -> Vec2, fuel: nat,
                         progress: Progress)
      returns (r: Outcome<real>)
      modifies this`ends, this`refinedEnds, this`contour
      ensures old(ends).east.x == old(ends).west.x ==>
        r == Failed(DivisionByZero) && ends == old(ends) && refinedEnds == old(refinedEnds) && contour == old(contour)
      ensures old(ends).east.x != old(ends).west.x ==>
        var pts := Xyz(cloud, rotate);
        var rEnds := TurnEnds(rotate, old(ends));
        var refined := if refine then Refine(pts, rEnds, minimumHeight, fuel) else Done(rEnds);
        && (refined.Failed? ==>
              r == Failed(refined.why) && ends == old(ends) && refinedEnds == old(refinedEnds) && contour == old(contour))
        && (refined.Done? ==>
              && (refine ==> ends == TurnEnds(unrotate, refined.value) && refinedEnds)
              && (!refine ==> ends == old(ends) && refinedEnds == old(refinedEnds))
              && var c := Contour(ends, refined.value, pts, minimumHeight, steps, dir, project, progress);
                 && (c.Done? ==> r == Done(c.value.length) && contour == c.value.coordinates)
                 && (c.Failed? ==> r == Failed(c.why) && contour == old(contour)))
    {
      if ends.east.x == ends.west.x {
        return Failed(DivisionByZero);
      }
      var pts := Xyz(cloud, rotate);
      var rEnds := TurnEnds(rotate, ends);
      if refine {
        var refined := RefineEnds(pts, rEnds, minimumHeight, unrotate, fuel);
        if refined.Failed? {
          return Failed(refined.why);
        }
        rEnds := refined.value;
      }
      r := TraceContour(pts, rEnds, minimumHeight, steps, dir, project, progress);
    }

    /** `create_depth`: samples the depth raster at `steps + padding_left +
        padding_right` points along the section (the given ends, or the
        object's), reading no-data and failed samples as 0, and keeps the
        smallest depth as the maximum depth. */
    method CreateDepth(sample: Vec2 -> RasterSample, noData: real, steps: nat, paddingLeft: nat, paddingRight: nat,
                       endsArg: Option<Ends>, dir: Direction) returns (ok: bool)
      modifies this`depths, this`maximumDepth
      ensures ok == (steps > 0)
      ensures ok ==>
        var e := if endsArg.Some? then endsArg.value else ends;
        && depths == DepthProfile(sample, noData, StartOf(e, dir), EndOf(e, dir), steps, paddingLeft, paddingRight)
        && maximumDepth in depths
        && forall k :: 0 <= k < |depths| ==> maximumDepth <= depths[k]
      ensures !ok ==> depths == old(depths) && maximumDepth == old(maximumDepth)
    {
      if steps == 0 {
        return false;
      }
      var e := if endsArg.Some? then endsArg.value else ends;
      var values := SampleDepths(sample, noData, StartOf(e, dir), EndOf(e, dir), steps, paddingLeft, paddingRight);
      depths := values;
      maximumDepth := MinOf(values).value;
      ok := true;
    }

    /** `create_image`: the maximum depth defaults to the object's; the
        cloud and ends are rotated by the angle of the section, the ends
        refined (and the object's ends updated) when asked and not yet
        done, and the picture rendered from the rotated points. */
    method CreateImage(width: nat, paddingLeft: nat, paddingBottom: nat, paddingRight: nat,
                       maximumDepthArg: Option<real>, minimumHeight: real, dir: Direction, refine: bool,
                       rotate: Vec3 -> Vec3, unrotate: Vec3 -> Vec3, fuel: nat, progress: Progress)
      returns (r: Outcome<Picture>)
      requires width > 0
      requires (if maximumDepthArg.Some? then maximumDepthArg.value else maximumDepth) <= 0.0
      modifies this`ends, this`refinedEnds
      ensures old(ends).east.x == old(ends).west.x ==>
        r == Failed(DivisionByZero) && ends == old(ends) && refinedEnds == old(refinedEnds)
      ensures old(ends).east.x != old(ends).west.x ==>
        var md := if maximumDepthArg.Some? then maximumDepthArg.value else maximumDepth;
        var rEnds := TurnEnds(rotate, old(ends));
        var refining := refine && !old(refinedEnds);
        var refined := if refining then Refine(Xyz(cloud, rotate), rEnds, minimumHeight, fuel) else Done(rEnds);
        && (refined.Failed? ==> r == Failed(refined.why) && ends == old(ends) && refinedEnds == old(refinedEnds))
        && (refined.Done? ==>
              && (refining ==> ends == TurnEnds(unrotate, refined.value) && refinedEnds)
              && (!refining ==> ends == old(ends) && refinedEnds == old(refinedEnds))
              && Shows(r, Rendered(Turned(cloud, rotate), refined.value, width, paddingLeft, paddingBottom,
                                   paddingRight, md, minimumHeight, dir, progress)))
    {
      var md := if maximumDepthArg.Some? then maximumDepthArg.value else maximumDepth;
      if ends.east.x == ends.west.x {
        return Failed(DivisionByZero);
      }
      var rEnds := TurnEnds(rotate, ends);
      if refine && !refinedEnds {
        var refined := RefineEnds(Xyz(cloud, rotate), rEnds, minimumHeight, unrotate, fuel);
        if refined.Failed? {
          return Failed(refined.why);
        }
        rEnds := refined.value;
      }
      r := RenderImage(Turned(cloud, rotate), rEnds, width, paddingLeft, paddingBottom, paddingRight, md, minimumHeight,
                       dir, progress);
    }
  }
}
