/** The QGIS plugin `AirGapVis` of `airgap_vis.py`: choosing the section's
    end points, naming the output files, the image adjustments, the
    clearance bars of the simulated view, and `generate`, which runs the
    point-cloud pipeline. Dialogs, painting and file writes are outside the
    model: the dialog's values arrive as parameters and the painter's
    rectangles are returned as a list. */
module Plugin {
  import opened Common
  import opened Points

  // ------------------------------------------------------------ end points

  /** A feature of the end-point layer: whether its geometry is a single
      point, where it is, and whether it meets the point cloud's bounds. */
  datatype Feature = Feature(isPoint: bool, singleType: bool, at: Vec2, inBounds: bool)

  predicate Candidate(f: Feature)
  {
    f.isPoint && f.singleType && f.inBounds
  }

  /** The single points within the point cloud's bounds, in layer order. */
  function Candidates(fs: seq<Feature>): (ps: seq<Vec2>)
    ensures |ps| <= |fs|
  {
    if fs == [] then []
    else
      var f := fs[|fs| - 1];
      Candidates(fs[..|fs| - 1]) + (if Candidate(f) then [f.at] else [])
  }

  /** A point is a candidate exactly when some candidate feature sits
      there. */
  lemma {:induction false} CandidatesMeaning(fs: seq<Feature>)
    ensures forall p :: p in Candidates(fs) <==> exists k :: 0 <= k < |fs| && Candidate(fs[k]) && fs[k].at == p
  {
    if fs != [] {
      var pre := fs[..|fs| - 1];
      CandidatesMeaning(pre);
      assert forall k :: 0 <= k < |pre| ==> pre[k] == fs[k];
      forall p | exists k :: 0 <= k < |fs| && Candidate(fs[k]) && fs[k].at == p
        ensures p in Candidates(fs)
      {
        var k :| 0 <= k < |fs| && Candidate(fs[k]) && fs[k].at == p;
        if k < |pre| {
          assert Candidate(pre[k]) && pre[k].at == p;
        }
      }
    }
  }

  const TooManyPoints := "Unable to determine end points. Too many points within point cloud bounds."
  const NotEnoughPoints := "Unable to determine end points. Not enough points within point cloud bounds."

  /** The answer of `determine_end_points` for the candidates found: two
      points, western first, or no points and a message. */
  function EndPointsOf(ps: seq<Vec2>): (seq<Vec2>, Option<string>)
  {
    if |ps| > 2 then ([], Some(TooManyPoints))
    else if |ps| < 2 then ([], Some(NotEnoughPoints))
    else if ps[0].x > ps[1].x then ([ps[1], ps[0]], None)
    else ([ps[0], ps[1]], None)
  }

  /** Exactly two candidates give both of them, the western one first;
      any other count gives no points and the matching message. */
  lemma EndPointsMeaning(ps: seq<Vec2>)
    ensures var (ends, error) := EndPointsOf(ps);
      && (|ps| == 2 <==> error.None?)
      && (|ps| == 2 ==> |ends| == 2 && ends[0].x <= ends[1].x && multiset(ends) == multiset(ps))
      && (|ps| != 2 ==> ends == [] && error == Some(if |ps| > 2 then TooManyPoints else NotEnoughPoints))
  {
    if |ps| == 2 {
      assert ps == [ps[0], ps[1]];
    }
  }

  /** `determine_end_points`: collect the candidates, then decide. */
  method DetermineEndPoints(fs: seq<Feature>) returns (ends: seq<Vec2>, error: Option<string>)
    ensures (ends, error) == EndPointsOf(Candidates(fs))
  {
    var points: seq<Vec2> := [];
    var i := 0;
    while i < |fs|
      invariant 0 <= i <= |fs|
      invariant points == Candidates(fs[..i])
    {
      assert fs[..i + 1][..i] == fs[..i];
      if fs[i].isPoint && fs[i].singleType && fs[i].inBounds {
        points := points + [fs[i].at];
      }
      i := i + 1;
    }
    assert fs[..|fs|] == fs;
    if |points| > 2 {
      return [], Some(TooManyPoints);
    } else if |points| < 2 {
      return [], Some(NotEnoughPoints);
    } else if points[0].x > points[1].x {
      return [points[1], points[0]], None;
    } else {
      return [points[0], points[1]], None;
    }
  }

  // ------------------------------------------------------------- file names

  predicate EndsWith(s: string, suffix: string)
  {
    |suffix| <= |s| && s[|s| - |suffix|..] == suffix
  }

  /** The name a contour or depth file is saved under: ".json" appended
      unless it already ends in ".json" or ".geojson". */
  function JsonName(filename: string): (name: string)
    ensures EndsWith(name, ".json") || EndsWith(name, ".geojson")
    ensures name == filename || name == filename + ".json"
    ensures name == filename <==> (EndsWith(filename, ".json") || EndsWith(filename, ".geojson"))
  {
    if !EndsWith(filename, ".json") && !EndsWith(filename, ".geojson") then
      assert (filename + ".json")[|filename + ".json"| - 5..] == ".json";
      filename + ".json"
    else filename
  }

  /** The name a background image is saved under: ".png" appended unless
      it already ends in ".png". */
  function PngName(filename: string): (name: string)
    ensures EndsWith(name, ".png")
    ensures name == filename || name == filename + ".png"
    ensures name == filename <==> EndsWith(filename, ".png")
  {
    if !EndsWith(filename, ".png") then
      assert (filename + ".png")[|filename + ".png"| - 4..] == ".png";
      filename + ".png"
    else filename
  }

  /** Normalising a normalised name changes nothing. */
  lemma NamesIdempotent(filename: string)
    ensures JsonName(JsonName(filename)) == JsonName(filename)
    ensures PngName(PngName(filename)) == PngName(filename)
  {
  }

  // ------------------------------------------------------- clearance bars

  /** The fill colours `color_image` paints with. */
  datatype Fill = Water | Bottom | Passable | Impassable

  /** One `painter.fillRect(x, y, width, height, colour)`. */
  datatype Rect = Rect(x: int, y: int, width: int, height: int, fill: Fill)

  /** The depths and contour `color_image` draws: reversed copies when the
      requested direction is not the one they were made for. */
  function ProfilesFor(requested: Direction, made: Direction, depths: seq<real>, contour: seq<Vec3>)
    : (p: (seq<real>, seq<Vec3>))
    ensures |p.0| == |depths| && |p.1| == |contour|
    ensures requested == made ==> p == (depths, contour)
    ensures requested != made ==>
      (forall i :: 0 <= i < |depths| ==> p.0[i] == depths[|depths| - 1 - i])
      && (forall i :: 0 <= i < |contour| ==> p.1[i] == contour[|contour| - 1 - i])
  {
    if requested != made then (Reverse(depths), Reverse(contour)) else (depths, contour)
  }

  /** `int(value / scale)`: a height in metres as whole pixels. */
  function Pixels(value: real, scale: real): int
    requires scale > 0.0
  {
    TruncToInt(value / scale)
  }

  function BarHeights(contour: seq<Vec3>, scale: real): (hs: seq<int>)
    requires scale > 0.0
    ensures |hs| == |contour| && forall i :: 0 <= i < |contour| ==> hs[i] == Pixels(contour[i].z, scale)
  {
    seq(|contour|, i requires 0 <= i < |contour| => Pixels(contour[i].z, scale))
  }

  /** The last positive height of `hs`, 0 when there is none. */
  function LastPositive(hs: seq<int>): (h: int)
    ensures h >= 0
  {
    if hs == [] then 0
    else if hs[|hs| - 1] > 0 then hs[|hs| - 1]
    else LastPositive(hs[..|hs| - 1])
  }

  /** A positive result is an entry with nothing positive after it; 0
      means no entry is positive. */
  lemma {:induction false} LastPositiveMeaning(hs: seq<int>)
    ensures var h := LastPositive(hs);
      && (h > 0 ==> exists k :: 0 <= k < |hs| && hs[k] == h && forall j :: k < j < |hs| ==> hs[j] <= 0)
      && (h == 0 ==> forall j :: 0 <= j < |hs| ==> hs[j] <= 0)
  {
    if hs != [] && hs[|hs| - 1] <= 0 {
      var pre := hs[..|hs| - 1];
      LastPositiveMeaning(pre);
      assert forall j :: 0 <= j < |pre| ==> pre[j] == hs[j];
      if LastPositive(pre) > 0 {
        var k :| 0 <= k < |pre| && pre[k] == LastPositive(pre) && forall j :: k < j < |pre| ==> pre[j] <= 0;
        assert hs[k] == LastPositive(hs);
      }
    }
  }

  /** The bar of column i: a positive height is drawn green when the vessel
      is lower than the contour, red otherwise; a column of no height is
      drawn red at the last positive height before it. */
  function Bar(i: int, left: int, y: int, h: int, previous: int, meters: real, vesselHeight: real): Rect
  {
    if h > 0 then Rect(left + i, y - h, 1, h, if vesselHeight < meters then Passable else Impassable)
    else Rect(left + i, y - previous, 1, previous, Impassable)
  }

  function ClearanceBars(contour: seq<Vec3>, scale: real, left: int, y: int, vesselHeight: real): (bars: seq<Rect>)
    requires scale > 0.0
    ensures |bars| == |contour|
  {
    var hs := BarHeights(contour, scale);
    seq(|contour|, i requires 0 <= i < |contour| =>
      Bar(i, left, y, hs[i], LastPositive(hs[..i]), contour[i].z, vesselHeight))
  }

  /** The bar rule read column by column: only a positive height that
      clears the vessel is green, and every bar of no height repeats the
      height of the nearest positive column to its left. */
  lemma ClearanceBarsMeaning(contour: seq<Vec3>, scale: real, left: int, y: int, vesselHeight: real, i: nat)
    requires scale > 0.0 && i < |contour|
    ensures var b := ClearanceBars(contour, scale, left, y, vesselHeight)[i];
      var h := Pixels(contour[i].z, scale);
      && b.x == left + i && b.width == 1
      && (b.fill == Passable <==> h > 0 && vesselHeight < contour[i].z)
      && (h > 0 ==> b.height == h && b.y == y - h)
      && (h <= 0 ==> b.height >= 0 && b.y == y - b.height
                     && (b.height == 0 <==> forall j :: 0 <= j < i ==> Pixels(contour[j].z, scale) <= 0)
                     && (b.height > 0 ==> exists k :: (0 <= k < i && Pixels(contour[k].z, scale) == b.height
                                          && forall j :: k < j < i ==> Pixels(contour[j].z, scale) <= 0)))
  {
    var hs := BarHeights(contour, scale);
    var prev := LastPositive(hs[..i]);
    assert ClearanceBars(contour, scale, left, y, vesselHeight)[i]
      == Bar(i, left, y, hs[i], prev, contour[i].z, vesselHeight);
    LastPositiveMeaning(hs[..i]);
    assert forall j :: 0 <= j < i ==> hs[..i][j] == hs[j];
    if prev > 0 {
      var k :| 0 <= k < i && hs[..i][k] == prev && forall j :: k < j < i ==> hs[..i][j] <= 0;
    }
  }

  /** The bathymetry bars: column i filled from `depth_height` below the
      waterline down through the bottom padding. */
  function DepthBars(depths: seq<real>, scale: real, y: int, paddingBottom: int): (bars: seq<Rect>)
    requires scale > 0.0
    ensures |bars| == |depths|
    ensures forall i :: 0 <= i < |depths| ==>
      && bars[i].x == i && bars[i].width == 1 && bars[i].fill == Bottom
      && y <= bars[i].y && bars[i].y + bars[i].height == y + paddingBottom
  {
    seq(|depths|, i requires 0 <= i < |depths| =>
      var dh := Pixels(if depths[i] < 0.0 then -depths[i] else depths[i], scale);
      Rect(i, y + dh, 1, paddingBottom - dh, Bottom))
  }

  /** The options of the simulated view. */
  datatype ViewOptions = ViewOptions(water: bool, bathymetry: bool, vesselHeight: real)

  /** The water band below the picture, when the view shows water. */
  function WaterLayer(imageWidth: int, imageHeight: int, paddingBottom: int, options: ViewOptions): seq<Rect>
  {
    if options.water then [Rect(0, imageHeight - paddingBottom, imageWidth, paddingBottom, Water)] else []
  }

  /** The bathymetry bars, when the view shows them. */
  function DepthLayerOf(depths: seq<real>, scale: real, y: int, paddingBottom: int, options: ViewOptions): seq<Rect>
    requires scale > 0.0
  {
    if options.bathymetry then DepthBars(depths, scale, y, paddingBottom) else []
  }

  /** The clearance bars, when a vessel height is set. */
  function ClearanceLayerOf(contour: seq<Vec3>, scale: real, left: int, y: int, options: ViewOptions): seq<Rect>
    requires scale > 0.0
  {
    if options.vesselHeight > 0.0 then ClearanceBars(contour, scale, left, y, options.vesselHeight) else []
  }

  /** Everything `color_image` paints over the picture, in order. */
  function Painted(imageWidth: int, imageHeight: int, scale: real, paddingLeft: int, paddingBottom: int,
                   depths: seq<real>, contour: seq<Vec3>, options: ViewOptions): seq<Rect>
    requires scale > 0.0
  {
    var y := imageHeight - paddingBottom;
    WaterLayer(imageWidth, imageHeight, paddingBottom, options)
    + DepthLayerOf(depths, scale, y, paddingBottom, options)
    + ClearanceLayerOf(contour, scale, paddingLeft, y, options)
  }

  /** `color_image`: the rectangles painted over the picture for the
      requested direction. */
  method ColorImage(imageWidth: int, imageHeight: int, scale: real, paddingLeft: int, paddingBottom: int,
                    storedDepths: seq<real>, storedContour: seq<Vec3>, requested: Direction, made: Direction,
                    options: ViewOptions)
    returns (rects: seq<Rect>)
    requires scale > 0.0
    ensures rects == Painted(imageWidth, imageHeight, scale, paddingLeft, paddingBottom,
                             ProfilesFor(requested, made, storedDepths, storedContour).0,
                             ProfilesFor(requested, made, storedDepths, storedContour).1, options)
  {
    var profiles := ProfilesFor(requested, made, storedDepths, storedContour);
    var y := imageHeight - paddingBottom;
    var water := WaterLayer(imageWidth, imageHeight, paddingBottom, options);
    var depthBars := DepthLayer(options, profiles.0, scale, y, paddingBottom);
    var clearanceBars := ClearanceLayer(options, profiles.1, scale, paddingLeft, y);
    PaintedLayers(imageWidth, imageHeight, scale, paddingLeft, paddingBottom, profiles.0, profiles.1, options,
                  water, depthBars, clearanceBars);
    rects := water + depthBars + clearanceBars;
  }

  /** `color_image` paints the three layers in order. */
  lemma PaintedLayers(imageWidth: int, imageHeight: int, scale: real, paddingLeft: int, paddingBottom: int,
                      depths: seq<real>, contour: seq<Vec3>, options: ViewOptions,
                      water: seq<Rect>, depthBars: seq<Rect>, clearanceBars: seq<Rect>)
    requires scale > 0.0
    requires water == WaterLayer(imageWidth, imageHeight, paddingBottom, options)
    requires depthBars == DepthLayerOf(depths, scale, imageHeight - paddingBottom, paddingBottom, options)
    requires clearanceBars == ClearanceLayerOf(contour, scale, paddingLeft, imageHeight - paddingBottom, options)
    ensures Painted(imageWidth, imageHeight, scale, paddingLeft, paddingBottom, depths, contour, options)
         == water + depthBars + clearanceBars
  {
  }

  /** The bathymetry bars, when the view asks for them. */
  method DepthLayer(options: ViewOptions, depths: seq<real>, scale: real, y: int, paddingBottom: int)
    returns (bars: seq<Rect>)
    requires scale > 0.0
    ensures bars == DepthLayerOf(depths, scale, y, paddingBottom, options)
  {
    bars := [];
    if options.bathymetry {
      bars := PaintDepths(depths, scale, y, paddingBottom);
    }
  }

  /** The clearance bars, when a vessel height is set. */
  method ClearanceLayer(options: ViewOptions, contour: seq<Vec3>, scale: real, x: int, y: int)
    returns (bars: seq<Rect>)
    requires scale > 0.0
    ensures bars == ClearanceLayerOf(contour, scale, x, y, options)
  {
    bars := [];
    if options.vesselHeight > 0.0 {
      bars := PaintClearance(contour, scale, x, y, options.vesselHeight);
    }
  }

  /** The bathymetry loop of `color_image`. */
  method PaintDepths(depths: seq<real>, scale: real, y: int, paddingBottom: int) returns (bars: seq<Rect>)
    requires scale > 0.0
    ensures bars == DepthBars(depths, scale, y, paddingBottom)
  {
    bars := [];
    var i := 0;
    while i < |depths|
      invariant 0 <= i <= |depths|
      invariant bars == DepthBars(depths, scale, y, paddingBottom)[..i]
    {
      var depthHeight := Pixels(if depths[i] < 0.0 then -depths[i] else depths[i], scale);
      bars := bars + [Rect(i, y + depthHeight, 1, paddingBottom - depthHeight, Bottom)];
      i := i + 1;
    }
  }

  /** The clearance loop of `color_image`, carrying the previous positive
      height across columns. */
  method PaintClearance(contour: seq<Vec3>, scale: real, x: int, y: int, vesselHeight: real) returns (bars: seq<Rect>)
    requires scale > 0.0
    ensures bars == ClearanceBars(contour, scale, x, y, vesselHeight)
  {
    ghost var hs := BarHeights(contour, scale);
    ghost var all := ClearanceBars(contour, scale, x, y, vesselHeight);
    bars := [];
    var previous := 0;
    var i := 0;
    while i < |contour|
      invariant 0 <= i <= |contour|
      invariant previous == LastPositive(hs[..i])
      invariant bars == all[..i]
    {
      var bar, height := ClearanceColumn(contour[i].z, scale, x + i, y, previous, vesselHeight);
      ClearanceBarsStep(contour, scale, x, y, vesselHeight, i);
      LastPositiveStep(hs, i);
      bars := bars + [bar];
      if height > 0 {
        previous := height;
      }
      i := i + 1;
    }
  }

  /** One column of the clearance loop: its height in pixels and its bar,
      given the last positive height before it. */
  method ClearanceColumn(meters: real, scale: real, column: int, y: int, previous: int, vesselHeight: real)
    returns (bar: Rect, height: int)
    requires scale > 0.0
    ensures height == Pixels(meters, scale)
    ensures bar == Bar(column, 0, y, height, previous, meters, vesselHeight)
  {
    height := Pixels(meters, scale);
    if height > 0 {
      bar := Rect(column, y - height, 1, height, if vesselHeight < meters then Passable else Impassable);
    } else {
      bar := Rect(column, y - previous, 1, previous, Impassable);
    }
  }

  lemma ClearanceBarsStep(contour: seq<Vec3>, scale: real, x: int, y: int, vesselHeight: real, i: nat)
    requires scale > 0.0 && i < |contour|
    ensures var hs := BarHeights(contour, scale);
      ClearanceBars(contour, scale, x, y, vesselHeight)[..i + 1]
        == ClearanceBars(contour, scale, x, y, vesselHeight)[..i]
           + [Bar(i, x, y, hs[i], LastPositive(hs[..i]), contour[i].z, vesselHeight)]
  {
  }

  lemma LastPositiveStep(hs: seq<int>, i: nat)
    requires i < |hs|
    ensures LastPositive(hs[..i + 1]) == if hs[i] > 0 then hs[i] else LastPositive(hs[..i])
  {
    assert hs[..i + 1][..i] == hs[..i];
  }

  // ---------------------------------------------------------------- plugin

  /** The dialog's values `generate` reads. `paddingRightBox` is the right
      padding spin box, which `generate` never reads. */
  datatype Settings = Settings(width: nat, minimumHeight: real, paddingLeft: nat, paddingRightBox: nat,
                               paddingBottom: nat, refine: bool, createDepth: bool)

  /** What `generate` keeps for the simulated view. */
  datatype Generation = Generation(scale: real, adjustedPaddingBottom: nat, width: nat, minimumHeight: real,
                                   paddingLeft: nat, paddingRight: nat, paddingBottom: nat, refine: bool,
                                   eastWest: Picture, westEast: Picture, depths: seq<real>, contour: seq<Vec3>)

  /** How `generate` ends: a warning before any work, an exception part
      way, or done. */
  datatype Run = Warning(message: string) | Aborted(why: Failure) | Completed

  /** The foreign collaborators of `generate`: the rotation of the section
      and back, the reprojection to longitude and latitude, the depth
      raster, and the fuel bound on `refine_ends`. */
  datatype Services = Services(rotate: Vec3 -> Vec3, unrotate: Vec3 -> Vec3, project: Vec2 -> Vec2,
                               sample: Vec2 -> RasterSample, noData: real, fuel: nat)

  /** The enhancement of one picture. */
  datatype Adjustments = Adjustments(brightness: real, contrast: real, saturation: real, sharpness: real)

  datatype Adjustment = Brightness | Contrast | Saturation | Sharpness

  function Adjusted(a: Adjustments, which: Adjustment, v: real): (b: Adjustments)
    ensures which == Brightness ==> b == a.(brightness := v)
    ensures which == Contrast ==> b == a.(contrast := v)
    ensures which == Saturation ==> b == a.(saturation := v)
    ensures which == Sharpness ==> b == a.(sharpness := v)
  {
    match which
    case Brightness => a.(brightness := v)
    case Contrast => a.(contrast := v)
    case Saturation => a.(saturation := v)
    case Sharpness => a.(sharpness := v)
  }

  /** The progress bar `generate` hands to each step, with its
      `bar_steps`. */
  const ContourProgress := Progress(true, 33)
  const EastWestProgress := Progress(true, 34)
  const WestEastProgress := Progress(true, 33)

  /** Both pictures of `generate` rendered from the same ends, east to
      west and west to east, with the right padding equal to the left. */
  ghost predicate PicturesFrom(ew: Picture, we: Picture, cloud: seq<LidarPoint>, ends: Ends, maximumDepth: real,
                               s: Settings, env: Services, padding: nat)
    reads ew.pixels, we.pixels
  {
    && s.width > 0 && maximumDepth <= 0.0
    && Shows(Done(ew), Rendered(Turned(cloud, env.rotate), TurnEnds(env.rotate, ends), s.width, padding,
                                s.paddingBottom, padding, maximumDepth, s.minimumHeight, EastToWest, EastWestProgress))
    && Shows(Done(we), Rendered(Turned(cloud, env.rotate), TurnEnds(env.rotate, ends), s.width, padding,
                                s.paddingBottom, padding, maximumDepth, s.minimumHeight, WestToEast, WestEastProgress))
  }

  /** The point-cloud work of `generate` once the ends are known: the
      contour, the optional depths and the two pictures, in that order, the
      right padding read from the left padding's box. Both pictures are
      rendered from the ends the contour step left, which are not refined
      again. */
  method Pipeline(points: AirGapPoints, s: Settings, env: Services, dir: Direction) returns (r: Outcome<Generation>)
    requires forall p :: DepthValue(env.sample(p), env.noData) <= 0.0
    requires points.maximumDepth <= 0.0
    modifies points
    ensures points.maximumDepth <= 0.0
    ensures r.Done? ==>
      && s.width > 0
      && r.value.paddingLeft == s.paddingLeft && r.value.paddingRight == s.paddingLeft
      && r.value.width == s.width && r.value.paddingBottom == s.paddingBottom
      && r.value.scale == r.value.westEast.scale && r.value.adjustedPaddingBottom == r.value.westEast.paddingBottom
      && r.value.contour == points.contour && |points.contour| == s.width
      && r.value.depths == points.depths
      && PicturesFrom(r.value.eastWest, r.value.westEast, points.cloud, points.ends, points.maximumDepth, s, env,
                      s.paddingLeft)
  {
    var contour := ContourStep(points, s, env, dir);
    if contour.Failed? {
      return Failed(contour.why);
    }
    r := DepthsAndPictures(points, s, env, dir);
  }

  /** What `generate` does after a traced contour: the optional depths, the
      two pictures, and the values it keeps. */
  method DepthsAndPictures(points: AirGapPoints, s: Settings, env: Services, dir: Direction)
    returns (r: Outcome<Generation>)
    requires forall p :: DepthValue(env.sample(p), env.noData) <= 0.0
    requires points.maximumDepth <= 0.0 && s.width > 0 && (s.refine ==> points.refinedEnds)
    modifies points`depths, points`maximumDepth, points`ends, points`refinedEnds
    ensures points.maximumDepth <= 0.0
    ensures r.Done? ==>
      && r.value.paddingLeft == s.paddingLeft && r.value.paddingRight == s.paddingLeft
      && r.value.width == s.width && r.value.paddingBottom == s.paddingBottom
      && r.value.scale == r.value.westEast.scale && r.value.adjustedPaddingBottom == r.value.westEast.paddingBottom
      && r.value.contour == points.contour && r.value.depths == points.depths
      && PicturesFrom(r.value.eastWest, r.value.westEast, points.cloud, points.ends, points.maximumDepth, s, env,
                      s.paddingLeft)
  {
    DepthStep(points, s, env, s.paddingLeft, dir);
    var pictures := PictureStep(points, s, env, s.paddingLeft);
    if pictures.Failed? {
      return Failed(pictures.why);
    }
    var (ew, we) := pictures.value;
    r := Done(Generation(we.scale, we.paddingBottom, s.width, s.minimumHeight, s.paddingLeft, s.paddingLeft,
                         s.paddingBottom, s.refine, ew, we, points.depths, points.contour));
  }

  /** The `create_contour` step of `generate`: on success the contour holds
      one point per pixel of width, and refined ends are marked so. */
  method ContourStep(points: AirGapPoints, s: Settings, env: Services, dir: Direction) returns (r: Outcome<real>)
    modifies points`ends, points`refinedEnds, points`contour
    ensures r.Done? ==> s.width > 0 && |points.contour| == s.width && (s.refine ==> points.refinedEnds)
    ensures old(points.ends).east.x != old(points.ends).west.x && !s.refine ==>
      var c := Contour(points.ends, TurnEnds(env.rotate, points.ends), Xyz(points.cloud, env.rotate),
                       s.minimumHeight, s.width, dir, env.project, ContourProgress);
      && points.ends == old(points.ends)
      && (c.Done? ==> r == Done(c.value.length) && points.contour == c.value.coordinates)
      && (c.Failed? ==> r == Failed(c.why) && points.contour == old(points.contour))
  {
    r := points.CreateContour(s.minimumHeight, s.width, s.refine, dir, env.rotate, env.unrotate, env.project, env.fuel,
                              ContourProgress);
    if r.Done? {
      ghost var pts := Xyz(points.cloud, env.rotate);
      ghost var rEnds := TurnEnds(env.rotate, old(points.ends));
      ghost var refined := if s.refine then Refine(pts, rEnds, s.minimumHeight, env.fuel) else Done(rEnds);
      ContourDirections(points.ends, refined.value, pts, s.minimumHeight, s.width, env.project, ContourProgress);
    }
  }

  /** The optional `create_depth` step of `generate`, with the right
      padding equal to the left: the deepest value stays at or below the
      surface. */
  method DepthStep(points: AirGapPoints, s: Settings, env: Services, padding: nat, dir: Direction)
    requires s.width > 0
    requires forall p :: DepthValue(env.sample(p), env.noData) <= 0.0
    requires points.maximumDepth <= 0.0
    modifies points`depths, points`maximumDepth
    ensures points.maximumDepth <= 0.0
    ensures s.createDepth ==>
      points.depths == DepthProfile(env.sample, env.noData, StartOf(points.ends, dir), EndOf(points.ends, dir),
                                    s.width, padding, padding)
    ensures !s.createDepth ==> points.depths == old(points.depths) && points.maximumDepth == old(points.maximumDepth)
  {
    if s.createDepth {
      var ok := points.CreateDepth(env.sample, env.noData, s.width, padding, padding, None, dir);
    }
  }

  /** The two `create_image` calls of `generate`, east to west first; the
      first failure ends the step. The first call refines the ends when
      asked and not yet done, so the second renders from the ends the first
      left. */
  method PictureStep(points: AirGapPoints, s: Settings, env: Services, padding: nat) returns (r: Outcome<(Picture, Picture)>)
    requires s.width > 0 && points.maximumDepth <= 0.0
    modifies points`ends, points`refinedEnds
    ensures old(points.ends).east.x == old(points.ends).west.x ==> r == Failed(DivisionByZero)
    ensures r.Done? && (s.refine ==> old(points.refinedEnds)) ==>
      && points.ends == old(points.ends)
      && PicturesFrom(r.value.0, r.value.1, points.cloud, points.ends, points.maximumDepth, s, env, padding)
    ensures r.Done? ==>
      var rEnds := TurnEnds(env.rotate, old(points.ends));
      var refining := s.refine && !old(points.refinedEnds);
      var refined := if refining then Refine(Xyz(points.cloud, env.rotate), rEnds, s.minimumHeight, env.fuel) else Done(rEnds);
      && refined.Done?
      && points.ends == (if refining then TurnEnds(env.unrotate, refined.value) else old(points.ends))
      && Shows(Done(r.value.0), Rendered(Turned(points.cloud, env.rotate), refined.value, s.width, padding,
                 s.paddingBottom, padding, points.maximumDepth, s.minimumHeight, EastToWest, EastWestProgress))
      && Shows(Done(r.value.1), Rendered(Turned(points.cloud, env.rotate), TurnEnds(env.rotate, points.ends), s.width,
                 padding, s.paddingBottom, padding, points.maximumDepth, s.minimumHeight, WestToEast, WestEastProgress))
  {
    var ew := points.CreateImage(s.width, padding, s.paddingBottom, padding, None, s.minimumHeight,
                                 EastToWest, s.refine, env.rotate, env.unrotate, env.fuel, EastWestProgress);
    if ew.Failed? {
      return Failed(ew.why);
    }
    var we := points.CreateImage(s.width, padding, s.paddingBottom, padding, None, s.minimumHeight,
                                 WestToEast, s.refine, env.rotate, env.unrotate, env.fuel, WestEastProgress);
    if we.Failed? {
      return Failed(we.why);
    }
    r := Done((ew.value, we.value));
  }

  class AirGapVis {
    const enhancementSteps: nat
    var direction: Direction
    var contourText: string
    var depthText: string
    var eastWestText: string
    var westEastText: string
    var adjustments: map<Direction, Adjustments>
    var generated: Option<Generation>

    ghost predicate Valid()
      reads this
    {
      enhancementSteps > 0 && EastToWest in adjustments && WestToEast in adjustments
    }

    /** The plugin before the first run: west-to-east, ten enhancement
        steps, neutral adjustments for both pictures, nothing generated. */
    constructor ()
      ensures Valid() && enhancementSteps == 10 && direction == WestToEast && generated == None
      ensures contourText == "" && depthText == "" && eastWestText == "" && westEastText == ""
      ensures adjustments[EastToWest] == Adjustments(1.0, 1.0, 1.0, 0.0)
      ensures adjustments[WestToEast] == Adjustments(1.0, 1.0, 1.0, 0.0)
    {
      enhancementSteps := 10;
      direction := WestToEast;
      contourText := "";
      depthText := "";
      eastWestText := "";
      westEastText := "";
      adjustments := map[EastToWest := Adjustments(1.0, 1.0, 1.0, 0.0), WestToEast := Adjustments(1.0, 1.0, 1.0, 0.0)];
      generated := None;
    }

    /** `select_contour_file`: a chosen name (the dialog gives "" when
        cancelled) is normalised into the contour field. */
    method SelectContourFile(filename: string)
      modifies this`contourText
      ensures contourText == if filename == "" then old(contourText) else JsonName(filename)
    {
      if filename != "" {
        var name := filename;
        if !EndsWith(name, ".json") && !EndsWith(name, ".geojson") {
          name := name + ".json";
        }
        contourText := name;
      }
    }

    /** `select_depth_file`. */
    method SelectDepthFile(filename: string)
      modifies this`depthText
      ensures depthText == if filename == "" then old(depthText) else JsonName(filename)
    {
      if filename != "" {
        var name := filename;
        if !EndsWith(name, ".json") && !EndsWith(name, ".geojson") {
          name := name + ".json";
        }
        depthText := name;
      }
    }

    /** `select_east_west_background_file` and its west-to-east twin. */
    method SelectBackgroundFile(filename: string, dir: Direction)
      modifies this`eastWestText, this`westEastText
      ensures dir == EastToWest ==>
        westEastText == old(westEastText) && eastWestText == if filename == "" then old(eastWestText) else PngName(filename)
      ensures dir == WestToEast ==>
        eastWestText == old(eastWestText) && westEastText == if filename == "" then old(westEastText) else PngName(filename)
    {
      if filename != "" {
        var name := filename;
        if !EndsWith(name, ".png") {
          name := name + ".png";
        }
        if dir == EastToWest {
          eastWestText := name;
        } else {
          westEastText := name;
        }
      }
    }

    /** `adjustment_changed`: the slider value over the enhancement steps
        becomes that one adjustment of that one picture. */
    method AdjustmentChanged(value: int, which: Adjustment, dir: Direction)
      requires Valid()
      modifies this`adjustments
      ensures Valid()
      ensures adjustments == old(adjustments)[dir := Adjusted(old(adjustments)[dir], which, value as real / enhancementSteps as real)]
    {
      adjustments := adjustments[dir := Adjusted(adjustments[dir], which, value as real / enhancementSteps as real)];
    }

    /** `generate`: determine the end points (warning and returning when
        there are not exactly two), then contour, optional depths and the
        two pictures, east to west first. The right padding is read from
        the left padding's spin box. */
    method Generate(fs: seq<Feature>, cloud: seq<LidarPoint>, s: Settings, env: Services)
      returns (r: Run)
      requires forall p :: DepthValue(env.sample(p), env.noData) <= 0.0
      modifies this`generated
      ensures |Candidates(fs)| != 2 ==>
        r == Warning(EndPointsOf(Candidates(fs)).1.value) && generated == old(generated)
      ensures |Candidates(fs)| == 2 ==> !r.Warning?
      ensures r.Aborted? ==> generated == old(generated)
      ensures r.Completed? ==>
        && generated.Some?
        && generated.value.paddingLeft == s.paddingLeft
        && generated.value.paddingRight == s.paddingLeft
        && generated.value.width == s.width && generated.value.paddingBottom == s.paddingBottom
        && generated.value.scale == generated.value.westEast.scale
        && generated.value.adjustedPaddingBottom == generated.value.westEast.paddingBottom
        && |generated.value.contour| == s.width
    {
      var ends, error := DetermineEndPoints(fs);
      if |ends| == 0 {
        EndPointsMeaning(Candidates(fs));
        return Warning(error.value);
      }
      EndPointsMeaning(Candidates(fs));
      var points := new AirGapPoints(cloud, ends[0], ends[1]);
      var run := Pipeline(points, s, env, direction);
      if run.Failed? {
        return Aborted(run.why);
      }
      generated := Some(run.value);
      r := Completed;
    }
  }
}
