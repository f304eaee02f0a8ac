/** The browser viewer of `airgap.js`: the class `AirGapVisualization` and
    the gauge-based `WaterGageVisualization.loadAirGap`. The DOM, canvas
    drawing, `fetch` and timers are outside the model; fetched documents
    arrive as parameters, `None` standing for a response that was not ok. */
module Viewer {
  import opened Common

  /** `options.initialOrientation`, taken to be "up" (upstream) or "down"
      (downstream). */
  datatype View = Upstream | Downstream

  function Flip(v: View): (w: View)
    ensures w != v
  {
    match v
    case Upstream => Downstream
    case Downstream => Upstream
  }

  /** A JavaScript number as the viewer can produce it: a real value, NaN
      (arithmetic on an undefined air gap), or a thrown `TypeError`. */
  datatype Reading = Number(value: real) | NaN | Thrown

  // ------------------------------------------------------------ orientation

  /** The view the page currently shows: the initial one at orientation 0,
      the other one otherwise. */
  function EffectiveView(initial: View, orientation: nat): View
  {
    if orientation == 0 then initial else Flip(initial)
  }

  /** The page shows the section from east to west exactly when it looks
      upstream on an east-to-west river, or downstream on a west-to-east one. */
  predicate ShowsEastWest(view: View, upstream: Direction)
  {
    (view == Upstream && upstream == EastToWest) || (view == Downstream && upstream == WestToEast)
  }

  /** `_loadBridgeImage`: the east-to-west picture when the effective view
      shows the section from the east. */
  function BridgeImage(initial: View, upstream: Direction, orientation: nat): (d: Direction)
    ensures d == EastToWest <==> ((EffectiveView(initial, orientation) == Upstream) == (upstream == EastToWest))
  {
    if ShowsEastWest(EffectiveView(initial, orientation), upstream) then EastToWest else WestToEast
  }

  /** `_loadDepths` and `_loadHeights`: the fetched profile, reversed when
      the initial view shows the section from the east. */
  function LoadedProfile<T>(s: seq<T>, initial: View, upstream: Direction): (p: seq<T>)
    ensures |p| == |s|
    ensures forall i :: 0 <= i < |s| ==>
      p[i] == if ShowsEastWest(initial, upstream) then s[|s| - 1 - i] else s[i]
  {
    if ShowsEastWest(initial, upstream) then Reverse(s) else s
  }

  /** At load time (orientation 0) the picture is the east-to-west one
      exactly when the depths and the contour were reversed. */
  lemma ImageAgreesWithProfiles<T>(s: seq<T>, initial: View, upstream: Direction)
    requires |s| > 1 && s[0] != s[|s| - 1]
    ensures BridgeImage(initial, upstream, 0) == EastToWest <==> LoadedProfile(s, initial, upstream)[0] == s[|s| - 1]
  {
  }

  /** `_setOrientation`: the next orientation, `(o + 180) % 360`. */
  function Toggled(orientation: nat): (o: nat)
    ensures orientation < 360 ==> o < 360 && o != orientation
  {
    (orientation + 180) % 360
  }

  /** Toggling twice restores the orientation. */
  lemma ToggleInvolution(orientation: nat)
    requires orientation < 360
    ensures Toggled(Toggled(orientation)) == orientation
  {
  }

  /** Each toggle between 0 and 180 flips the view and the picture. */
  lemma ToggleFlipsImage(initial: View, upstream: Direction, orientation: nat)
    requires orientation == 0 || orientation == 180
    ensures EffectiveView(initial, Toggled(orientation)) == Flip(EffectiveView(initial, orientation))
    ensures BridgeImage(initial, upstream, Toggled(orientation)) != BridgeImage(initial, upstream, orientation)
  {
  }

  /** The caption of the orientation switch. */
  function OrientationLabel(initial: View, orientation: nat): (s: string)
    ensures s == (if EffectiveView(initial, orientation) == Upstream then "Viewing Upstream " else "Viewing Downstream ")
  {
    if orientation == 0 then
      (if initial == Upstream then "Viewing Upstream " else "Viewing Downstream ")
    else
      (if initial == Upstream then "Viewing Downstream " else "Viewing Upstream ")
  }

  // ----------------------------------------------------------------- groups

  /** `parseInt(x / xWidth)` for a coordinate: truncation toward zero, or
      `None` when the width is 0 and the quotient is NaN or infinite. */
  function GroupIndex(c: Vec3, start: Vec3, xWidth: real): Option<int>
  {
    if xWidth == 0.0 then None else Some(TruncToInt((c.x - start.x) / xWidth))
  }

  /** The groups part way through `_groupHeights`, and whether a push has
      thrown (the index named no group). A throw leaves the groups as they
      were at that moment. */
  datatype Grouping = Grouping(groups: seq<seq<real>>, thrown: bool)

  function Place(g: Grouping, c: Vec3, start: Vec3, xWidth: real): Grouping
  {
    if g.thrown then g
    else
      match GroupIndex(c, start, xWidth)
      case None => g.(thrown := true)
      case Some(i) =>
        if 0 <= i < |g.groups| then Grouping(g.groups[i := g.groups[i] + [c.z]], false)
        else g.(thrown := true)
  }

  function PlaceAll(g: Grouping, cs: seq<Vec3>, start: Vec3, xWidth: real): Grouping
  {
    if cs == [] then g
    else Place(PlaceAll(g, cs[..|cs| - 1], start, xWidth), cs[|cs| - 1], start, xWidth)
  }

  function Empties(n: nat): (gs: seq<seq<real>>)
    ensures |gs| == n && forall i :: 0 <= i < n ==> gs[i] == []
  {
    seq(n, i => [])
  }

  /** `_groupHeights` on a fresh viewer: `pixelLength` empty groups, every
      coordinate but the last pushed to its group, the last one's height
      pushed to the last group. No coordinates at all throw before any
      group exists. */
  function Grouped(coords: seq<Vec3>, pixelLength: int): Grouping
  {
    if coords == [] then Grouping([], true)
    else
      var n := if pixelLength > 0 then pixelLength else 0;
      var xWidth := if pixelLength > 0 then (coords[|coords| - 1].x - coords[0].x) / pixelLength as real else 0.0;
      var g := PlaceAll(Grouping(Empties(n), false), coords[..|coords| - 1], coords[0], xWidth);
      if g.thrown then g
      else if g.groups == [] then g.(thrown := true)
      else
        var last := |g.groups| - 1;
        Grouping(g.groups[last := g.groups[last] + [coords[|coords| - 1].z]], false)
  }

  /** The heights of the coordinates whose group index is `i`, in order. */
  function Bucket(cs: seq<Vec3>, start: Vec3, xWidth: real, i: int): seq<real>
  {
    if cs == [] then []
    else
      var c := cs[|cs| - 1];
      Bucket(cs[..|cs| - 1], start, xWidth, i) + (if GroupIndex(c, start, xWidth) == Some(i) then [c.z] else [])
  }

  /** Every coordinate lands in the group its index names: when no push
      throws, each group holds exactly the heights of its coordinates, in
      order, and the number of groups is unchanged. */
  lemma {:induction false} PlaceAllBuckets(n: nat, cs: seq<Vec3>, start: Vec3, xWidth: real)
    requires !PlaceAll(Grouping(Empties(n), false), cs, start, xWidth).thrown
    ensures var g := PlaceAll(Grouping(Empties(n), false), cs, start, xWidth);
      |g.groups| == n && forall i :: 0 <= i < n ==> g.groups[i] == Bucket(cs, start, xWidth, i)
  {
    if cs != [] {
      var pre := cs[..|cs| - 1];
      var c := cs[|cs| - 1];
      var g0 := PlaceAll(Grouping(Empties(n), false), pre, start, xWidth);
      assert !g0.thrown;
      PlaceAllBuckets(n, pre, start, xWidth);
      forall i | 0 <= i < n
        ensures PlaceAll(Grouping(Empties(n), false), cs, start, xWidth).groups[i] == Bucket(cs, start, xWidth, i)
      {
      }
    }
  }

  /** A push throws exactly when some coordinate's index names no group. */
  lemma {:induction false} PlaceAllThrows(n: nat, cs: seq<Vec3>, start: Vec3, xWidth: real)
    ensures PlaceAll(Grouping(Empties(n), false), cs, start, xWidth).thrown <==>
      exists k :: 0 <= k < |cs| && !InRange(GroupIndex(cs[k], start, xWidth), n)
  {
    if cs != [] {
      var pre := cs[..|cs| - 1];
      PlaceAllThrows(n, pre, start, xWidth);
      assert forall k :: 0 <= k < |pre| ==> pre[k] == cs[k];
      var g0 := PlaceAll(Grouping(Empties(n), false), pre, start, xWidth);
      if !g0.thrown {
        PlaceAllBuckets(n, pre, start, xWidth);
      }
    }
  }

  predicate InRange(i: Option<int>, n: nat)
  {
    i.Some? && 0 <= i.value < n
  }

  /** The result of `_groupHeights`: `pixelLength` groups, group i holding
      the heights of the coordinates (all but the last) whose index is i,
      the last group also the last coordinate's height. */
  lemma GroupedMeaning(coords: seq<Vec3>, pixelLength: int)
    requires !Grouped(coords, pixelLength).thrown
    ensures coords != [] && pixelLength > 0
    ensures var g := Grouped(coords, pixelLength).groups;
      var xWidth := (coords[|coords| - 1].x - coords[0].x) / pixelLength as real;
      && |g| == pixelLength
      && forall i :: 0 <= i < pixelLength ==>
           g[i] == Bucket(coords[..|coords| - 1], coords[0], xWidth, i)
                   + (if i == pixelLength - 1 then [coords[|coords| - 1].z] else [])
  {
    var n := if pixelLength > 0 then pixelLength else 0;
    var xWidth := if pixelLength > 0 then (coords[|coords| - 1].x - coords[0].x) / pixelLength as real else 0.0;
    PlaceAllBuckets(n, coords[..|coords| - 1], coords[0], xWidth);
  }

  // ---------------------------------------------------------------- reading

  /** The nearest group at or left of `p` that holds a height, or -1. */
  function LastFilled(groups: seq<seq<real>>, p: int): (q: int)
    requires -1 <= p < |groups|
    ensures -1 <= q && q <= p
    ensures q >= 0 ==> groups[q] != []
    ensures forall j :: q < j <= p && 0 <= j ==> groups[j] == []
    decreases p + 1
  {
    if p < 0 then -1
    else if groups[p] != [] then p
    else LastFilled(groups, p - 1)
  }

  /** `_valueForPosition` as a value: clamp to the last group, walk back to
      a group with heights (none left throws), take its minimum; 0 stays 0,
      any other height is lowered by the gap change. */
  function ValueAt(groups: seq<seq<real>>, position: nat, gapChange: Option<real>): Reading
  {
    var p := if position < |groups| - 1 then position else |groups| - 1;
    var q := LastFilled(groups, p);
    if q < 0 then Thrown
    else
      var m := MinOf(groups[q]).value;
      if m == 0.0 then Number(0.0)
      else if gapChange.None? then NaN
      else Number(m - gapChange.value)
  }

  /** The value at a position comes from the nearest non-empty group at or
      before it (clamped to the last group); between the two every group is
      empty. */
  lemma ValueAtMeaning(groups: seq<seq<real>>, position: nat, gapChange: Option<real>)
    requires ValueAt(groups, position, gapChange) != Thrown
    ensures exists q :: (0 <= q <= position && q < |groups| && groups[q] != []
      && (forall j :: q < j <= position && j < |groups| ==> groups[j] == [])
      && (forall k :: 0 <= k < |groups[q]| ==> MinOf(groups[q]).value <= groups[q][k])
      && ValueAt(groups, position, gapChange) ==
           (if MinOf(groups[q]).value == 0.0 then Number(0.0)
            else if gapChange.None? then NaN else Number(MinOf(groups[q]).value - gapChange.value)))
  {
    var p := if position < |groups| - 1 then position else |groups| - 1;
    var q := LastFilled(groups, p);
    assert 0 <= q <= position && q < |groups| && groups[q] != [];
  }

  // ------------------------------------------------------------- air gap

  /** JavaScript truthiness of the stored air gap: set and non-zero. */
  predicate Truthy(a: Option<real>)
  {
    a.Some? && a.value != 0.0
  }

  /** The air gap `loadAirGap` keeps after fetching `fetched`: a failed
      fetch changes nothing, a reading of 0 keeps a truthy previous value
      (or stores 0), any other reading is stored. */
  function NextAirGap(previous: Option<real>, fetched: Option<real>): (a: Option<real>)
    ensures fetched.None? ==> a == previous
    ensures fetched.Some? && fetched.value != 0.0 ==> a == fetched
    ensures fetched == Some(0.0) ==> a == (if Truthy(previous) then previous else Some(0.0))
  {
    match fetched
    case None => previous
    case Some(v) =>
      if Truthy(previous) && v == 0.0 then previous
      else if v == 0.0 then Some(0.0)
      else Some(v)
  }

  /** Once a non-zero air gap has been stored, no later fetch can bring it
      back to 0 or unset it. */
  lemma {:induction false} AirGapNeverLost(previous: Option<real>, fetches: seq<Option<real>>)
    requires Truthy(previous)
    ensures Truthy(AfterFetches(previous, fetches))
  {
    if fetches != [] {
      AirGapNeverLost(previous, fetches[..|fetches| - 1]);
    }
  }

  function AfterFetches(previous: Option<real>, fetches: seq<Option<real>>): Option<real>
  {
    if fetches == [] then previous
    else NextAirGap(AfterFetches(previous, fetches[..|fetches| - 1]), fetches[|fetches| - 1])
  }

  // ----------------------------------------------------------------- gauges

  const MetresPerFoot: real := 0.3048

  /** One gauge's XML document: its identifier and the `primary` reading in
      feet, absent when the gauge is down. */
  datatype Gauge = Gauge(id: string, primary: Option<real>)

  function Levels(gs: seq<Gauge>): (ls: seq<real>)
    ensures |ls| <= |gs|
  {
    if gs == [] then []
    else
      var g := gs[|gs| - 1];
      Levels(gs[..|gs| - 1]) + (if g.primary.Some? then [g.primary.value * MetresPerFoot] else [])
  }

  function DownGauges(gs: seq<Gauge>): (ds: seq<string>)
    ensures ds == [] ==> |Levels(gs)| == |gs|
  {
    if gs == [] then []
    else
      var g := gs[|gs| - 1];
      DownGauges(gs[..|gs| - 1]) + (if g.primary.None? then [g.id] else [])
  }

  /** The gauges that are up, in metres, when none is down. */
  lemma {:induction false} LevelsAllUp(gs: seq<Gauge>)
    requires DownGauges(gs) == []
    ensures |Levels(gs)| == |gs|
    ensures forall k :: 0 <= k < |gs| ==> gs[k].primary.Some? && Levels(gs)[k] == gs[k].primary.value * MetresPerFoot
  {
    if gs != [] {
      var pre := gs[..|gs| - 1];
      LevelsAllUp(pre);
      assert forall k :: 0 <= k < |pre| ==> pre[k] == gs[k];
    }
  }

  /** `"A, B, "`: each name followed by a comma and a space, the text the
      message loop appends. */
  function Series(ds: seq<string>): string
  {
    if ds == [] then "" else Series(ds[..|ds| - 1]) + ds[|ds| - 1] + ", "
  }

  /** The names joined by ", ": an independent reading of the list. */
  function Join(ds: seq<string>, sep: string): string
  {
    if ds == [] then ""
    else if |ds| == 1 then ds[0]
    else ds[0] + sep + Join(ds[1..], sep)
  }

  /** The message for the gauges that could not be read. */
  function DownMessage(ds: seq<string>): string
    requires |ds| > 0
  {
    if |ds| == 1 then "Unable to load gage " + ds[0]
    else if |ds| == 2 then "Unable to load gages " + ds[0] + " and " + ds[1]
    else "Unable to load gages " + Series(ds[..|ds| - 1]) + "and " + ds[|ds| - 1]
  }

  lemma {:induction false} SeriesJoin(ds: seq<string>)
    requires |ds| > 0
    ensures Series(ds) == Join(ds, ", ") + ", "
  {
    var pre := ds[..|ds| - 1];
    if |ds| == 1 {
      assert pre == [];
    } else {
      SeriesJoin(pre);
      JoinSnoc(pre, ds[|ds| - 1], ", ");
      assert pre + [ds[|ds| - 1]] == ds;
    }
  }

  lemma {:induction false} JoinSnoc(ds: seq<string>, d: string, sep: string)
    requires |ds| > 0
    ensures Join(ds + [d], sep) == Join(ds, sep) + sep + d
  {
    if |ds| == 1 {
      assert (ds + [d])[1..] == [d];
    } else {
      assert (ds + [d])[1..] == ds[1..] + [d];
      JoinSnoc(ds[1..], d, sep);
    }
  }

  /** Three or more names read "A, B, ..., and Z": all but the last joined
      by ", ", then ", and " and the last (the serial comma). */
  lemma OxfordComma(ds: seq<string>)
    requires |ds| >= 3
    ensures DownMessage(ds) == "Unable to load gages " + Join(ds[..|ds| - 1], ", ") + ", and " + ds[|ds| - 1]
  {
    SeriesJoin(ds[..|ds| - 1]);
  }

  /** The message loop of `loadAirGap` for three or more down gauges. */
  method BuildDownMessage(ds: seq<string>) returns (message: string)
    requires |ds| > 0
    ensures message == DownMessage(ds)
  {
    if |ds| == 1 {
      message := "Unable to load gage " + ds[0];
    } else if |ds| == 2 {
      message := "Unable to load gages " + ds[0] + " and " + ds[1];
    } else {
      message := "Unable to load gages ";
      var i := 0;
      while i < |ds| - 1
        invariant 0 <= i <= |ds| - 1
        invariant message == "Unable to load gages " + Series(ds[..i])
      {
        assert ds[..i + 1][..i] == ds[..i];
        assert Series(ds[..i + 1]) == Series(ds[..i]) + ds[i] + ", ";
        message := message + ds[i] + ", ";
        i := i + 1;
      }
      assert message == "Unable to load gages " + Series(ds[..|ds| - 1]);
      message := message + "and " + ds[|ds| - 1];
    }
  }

  /** What the gauge viewer's `loadAirGap` concludes. */
  datatype GaugeResult =
    | Down(message: string)      // some gauge unreadable: an error is shown
    | NoGauge(airgap: real)      // no gauge configured
    | Gauged(airgap: real)       // one or more gauges read
    | Unusable                   // `Math.sum` of no distances throws, or they sum to 0

  function Sum(xs: seq<real>): real
  {
    if xs == [] then 0.0 else Sum(xs[..|xs| - 1]) + xs[|xs| - 1]
  }

  /** The air gap from the gauges: the base height less the adjustment and
      the first gauge's level, corrected by the level difference to the
      second gauge per metre of the summed distances, times the first
      distance. */
  function GaugeAirGap(gs: seq<Gauge>, baseHeight: real, adjustment: real, distances: seq<real>): GaugeResult
  {
    var ds := DownGauges(gs);
    if ds != [] then Down(DownMessage(ds))
    else if |gs| == 1 then Gauged(baseHeight - adjustment - Levels(gs)[0])
    else if |gs| == 0 then NoGauge(baseHeight - adjustment)
    else if distances == [] || Sum(distances) == 0.0 then Unusable
    else
      var levels := Levels(gs);
      Gauged(baseHeight - adjustment - levels[0] + Correction(levels[0], levels[1], Sum(distances), distances[0]))
  }

  /** `changePerMeter * gageDistances[0]`: the level difference of the
      first two gauges per metre of the summed distances, times the first
      distance. Equal levels need no correction. */
  function Correction(level0: real, level1: real, total: real, distance: real): (c: real)
    requires total != 0.0
    ensures level0 == level1 ==> c == 0.0
  {
    (level1 - level0) / total * distance
  }

  /** Gauges that agree give the single-gauge air gap; a down gauge always
      shows the message and never an air gap. */
  lemma GaugeAirGapMeaning(gs: seq<Gauge>, baseHeight: real, adjustment: real, distances: seq<real>)
    requires |gs| >= 2 && DownGauges(gs) == [] && distances != [] && Sum(distances) != 0.0
    requires gs[0].primary.Some? && gs[1].primary == gs[0].primary
    ensures GaugeAirGap(gs, baseHeight, adjustment, distances)
         == Gauged(baseHeight - adjustment - gs[0].primary.value * MetresPerFoot)
  {
    LevelsAllUp(gs);
  }

  lemma GaugeDownMeaning(gs: seq<Gauge>, baseHeight: real, adjustment: real, distances: seq<real>)
    requires exists k :: 0 <= k < |gs| && gs[k].primary.None?
    ensures GaugeAirGap(gs, baseHeight, adjustment, distances).Down?
  {
    if DownGauges(gs) == [] {
      LevelsAllUp(gs);
    }
  }

  /** The gauge loop of `loadAirGap`: the levels of the gauges that are
      up, in metres, and the identifiers of those that are down. */
  method ReadGauges(gs: seq<Gauge>) returns (levels: seq<real>, down: seq<string>)
    ensures levels == Levels(gs) && down == DownGauges(gs)
  {
    levels, down := [], [];
    var i := 0;
    while i < |gs|
      invariant 0 <= i <= |gs|
      invariant levels == Levels(gs[..i]) && down == DownGauges(gs[..i])
    {
      assert gs[..i + 1][..i] == gs[..i];
      if gs[i].primary.Some? {
        levels := levels + [gs[i].primary.value * MetresPerFoot];
      } else {
        down := down + [gs[i].id];
      }
      i := i + 1;
    }
    assert gs[..|gs|] == gs;
  }

  /** `Math.sum`: the values added left to right. */
  method SumOf(xs: seq<real>) returns (total: real)
    ensures total == Sum(xs)
  {
    total := 0.0;
    var k := 0;
    while k < |xs|
      invariant 0 <= k <= |xs|
      invariant total == Sum(xs[..k])
    {
      assert xs[..k + 1][..k] == xs[..k];
      total := total + xs[k];
      k := k + 1;
    }
    assert xs[..|xs|] == xs;
  }

  // ------------------------------------------------------------------ class

  /** The push loop of `_groupHeights`: each coordinate's height goes to
      the group its position falls in, until one falls outside every group
      (the throw), which leaves the groups as they were at that point. */
  method PlaceHeights(cs: seq<Vec3>, groups0: seq<seq<real>>, start: Vec3, xWidth: real)
    returns (groups: seq<seq<real>>, placed: Grouping)
    ensures placed == PlaceAll(Grouping(groups0, false), cs, start, xWidth) && placed.groups == groups
  {
    ghost var g := Grouping(groups0, false);
    groups := groups0;
    var i := 0;
    while i < |cs|
      invariant 0 <= i <= |cs|
      invariant PlaceAll(g, cs[..i], start, xWidth) == Grouping(groups, false)
    {
      assert cs[..i + 1][..i] == cs[..i];
      var index := GroupIndex(cs[i], start, xWidth);
      if index.None? || !(0 <= index.value < |groups|) {
        assert PlaceAll(g, cs[..i + 1], start, xWidth) == Grouping(groups, true);
        PlaceAllStop(g, cs, i + 1, start, xWidth);
        return groups, Grouping(groups, true);
      }
      groups := groups[index.value := groups[index.value] + [cs[i].z]];
      i := i + 1;
    }
    assert cs[..i] == cs;
    placed := Grouping(groups, false);
  }

  class AirGapVisualization {
    const initial: View
    const upstream: Direction
    const baseHeight: real
    var orientation: nat
    var caption: string
    var bridgeImage: Direction
    var status: string
    var airgap: Option<real>
    var depths: seq<real>
    var coordinates: seq<Vec3>
    var heights: seq<real>
    var groupedHeights: seq<seq<real>>

    /** A new viewer: orientation 0, the initial caption and picture, nothing
        loaded and no air gap yet. */
    constructor (initial: View, upstream: Direction, baseHeight: real)
      ensures this.initial == initial && this.upstream == upstream && this.baseHeight == baseHeight
      ensures orientation == 0 && caption == OrientationLabel(initial, 0) && bridgeImage == BridgeImage(initial, upstream, 0)
      ensures status == "" && airgap == None && depths == [] && coordinates == [] && heights == [] && groupedHeights == []
    {
      this.initial := initial;
      this.upstream := upstream;
      this.baseHeight := baseHeight;
      orientation := 0;
      caption := if initial == Upstream then "Viewing Upstream " else "Viewing Downstream ";
      bridgeImage := BridgeImage(initial, upstream, 0);
      status := "";
      airgap := None;
      depths := [];
      coordinates := [];
      heights := [];
      groupedHeights := [];
    }

    /** `gapChange`: the base height less the air gap; NaN (`None`) while
        no air gap has been stored. */
    function GapChange(): (g: Option<real>)
      reads this
      ensures g.None? <==> airgap.None?
      ensures g.Some? ==> g.value + airgap.value == baseHeight
    {
      if airgap.None? then None else Some(baseHeight - airgap.value)
    }

    /** `_setOrientation` and the `orientation` setter: the orientation
        toggles and the caption and picture follow it. */
    method SetOrientation()
      modifies this`orientation, this`caption, this`bridgeImage
      ensures orientation == Toggled(old(orientation))
      ensures caption == OrientationLabel(initial, orientation)
      ensures bridgeImage == BridgeImage(initial, upstream, orientation)
    {
      orientation := (orientation + 180) % 360;
      if orientation == 0 {
        caption := if initial == Upstream then "Viewing Upstream " else "Viewing Downstream ";
      } else {
        caption := if initial == Upstream then "Viewing Downstream " else "Viewing Upstream ";
      }
      bridgeImage := if ShowsEastWest(EffectiveView(initial, orientation), upstream) then EastToWest else WestToEast;
    }

    /** `_loadDepths`: a fetched profile is stored, reversed when the
        initial view shows the section from the east. */
    method LoadDepths(fetched: Option<seq<real>>)
      modifies this`depths
      ensures depths == if fetched.Some? then LoadedProfile(fetched.value, initial, upstream) else old(depths)
    {
      if fetched.None? {
        return;
      }
      depths := fetched.value;
      if (initial == Upstream && upstream == EastToWest) || (initial == Downstream && upstream == WestToEast) {
        depths := Reverse(depths);
      }
    }

    /** `_loadHeights`: the contour's coordinates are stored (reversed like
        the depths) and their heights appended to `heights`. */
    method LoadHeights(fetched: Option<seq<Vec3>>)
      modifies this`coordinates, this`heights
      ensures fetched.None? ==> coordinates == old(coordinates) && heights == old(heights)
      ensures fetched.Some? ==>
        && coordinates == LoadedProfile(fetched.value, initial, upstream)
        && |heights| == |old(heights)| + |coordinates|
        && heights[..|old(heights)|] == old(heights)
        && forall i :: 0 <= i < |coordinates| ==> heights[|old(heights)| + i] == coordinates[i].z
    {
      if fetched.None? {
        return;
      }
      coordinates := fetched.value;
      if (initial == Upstream && upstream == EastToWest) || (initial == Downstream && upstream == WestToEast) {
        coordinates := Reverse(coordinates);
      }
      var i := 0;
      while i < |coordinates|
        invariant 0 <= i <= |coordinates|
        invariant coordinates == LoadedProfile(fetched.value, initial, upstream)
        invariant |heights| == |old(heights)| + i
        invariant heights[..|old(heights)|] == old(heights)
        invariant forall j :: 0 <= j < i ==> heights[|old(heights)| + j] == coordinates[j].z
      {
        heights := heights + [coordinates[i].z];
        i := i + 1;
      }
    }

    /** `_groupHeights`, called once on a viewer whose groups are still
        empty: the groups after the call (also after a throw), and whether
        it threw. */
    method GroupHeights(pixelLength: int) returns (thrown: bool)
      requires groupedHeights == []
      modifies this`groupedHeights
      ensures Grouped(coordinates, pixelLength) == Grouping(groupedHeights, thrown)
    {
      if coordinates == [] {
        return true;
      }
      var start := coordinates[0];
      var end := coordinates[|coordinates| - 1];
      var n := if pixelLength > 0 then pixelLength else 0;
      var xWidth := if pixelLength > 0 then (end.x - start.x) / pixelLength as real else 0.0;
      var groups: seq<seq<real>> := [];
      var i := 0;
      while i < n
        invariant 0 <= i <= n
        invariant groups == Empties(i)
      {
        groups := groups + [[]];
        i := i + 1;
      }
      var placed;
      groups, placed := PlaceHeights(coordinates[..|coordinates| - 1], groups, start, xWidth);
      if placed.thrown {
        groupedHeights := groups;
        return true;
      }
      if groups == [] {
        groupedHeights := groups;
        return true;
      }
      groups := groups[|groups| - 1 := groups[|groups| - 1] + [end.z]];
      groupedHeights := groups;
      thrown := false;
    }

    /** `_valueForPosition`: the reading at a non-negative pixel position. */
    method ValueForPosition(position: nat) returns (r: Reading)
      ensures r == ValueAt(groupedHeights, position, GapChange())
    {
      var p: int := if position < |groupedHeights| - 1 then position else |groupedHeights| - 1;
      while p > -1 && groupedHeights[p] == []
        invariant -1 <= p < |groupedHeights|
        invariant LastFilled(groupedHeights, p) ==
                  LastFilled(groupedHeights, if position < |groupedHeights| - 1 then position else |groupedHeights| - 1)
        decreases p + 1
      {
        p := p - 1;
      }
      if p == -1 {
        return Thrown;
      }
      var m := MinOf(groupedHeights[p]).value;
      if m == 0.0 {
        return Number(0.0);
      }
      var g := GapChange();
      if g.None? {
        return NaN;
      }
      r := Number(m - g.value);
    }

    /** `loadAirGap` of the tide-gauge viewer: the fetched reading (`None`
        when the response was not ok) updates the stored air gap, and the
        stored value is returned (0 after a failed fetch). A successful
        fetch first sets `refreshDate`, whose setter shows `refreshText`,
        the reading's date as it renders it at the current time. */
    method LoadAirGap(fetched: Option<real>, refreshText: string) returns (value: real)
      modifies this`airgap, this`status
      ensures airgap == NextAirGap(old(airgap), fetched)
      ensures fetched.None? ==> value == 0.0 && status == old(status)
      ensures fetched.Some? ==> airgap.Some? && value == airgap.value && status == refreshText
    {
      if fetched.None? {
        return 0.0;
      }
      status := refreshText;
      var v := fetched.value;
      if (airgap.Some? && airgap.value != 0.0) && v == 0.0 {
        // the previous value is kept
      } else if v == 0.0 {
        airgap := Some(0.0);
      } else {
        airgap := Some(v);
      }
      value := airgap.value;
    }

    /** `WaterGageVisualization.loadAirGap`: reads the gauges, shows the
        message for down gauges or "No Gage", and stores the air gap. When
        every gauge is up and there is at least one, the `refreshDate`
        setter first shows `refreshText`, the first gauge's date as it
        renders it at the current time. */
    method LoadGaugeAirGap(gs: seq<Gauge>, adjustment: real, distances: seq<real>, refreshText: string) returns (r: GaugeResult)
      modifies this`airgap, this`status
      ensures r == GaugeAirGap(gs, baseHeight, adjustment, distances)
      ensures r.Down? ==> status == r.message && airgap == old(airgap)
      ensures r.NoGauge? ==> status == "No Gage" && airgap == Some(r.airgap)
      ensures r.Gauged? ==> status == refreshText && airgap == Some(r.airgap)
      ensures r.Unusable? ==> status == refreshText && airgap == old(airgap)
    {
      var levels, down := ReadGauges(gs);
      if down != [] {
        var message := BuildDownMessage(down);
        status := message;
        return Down(message);
      }
      if |gs| == 1 {
        status := refreshText;
        r := Gauged(baseHeight - adjustment - levels[0]);
      } else if |gs| == 0 {
        status := "No Gage";
        r := NoGauge(baseHeight - adjustment);
      } else {
        status := refreshText;
        if distances == [] {
          return Unusable;
        }
        var total := SumOf(distances);
        if total == 0.0 {
          return Unusable;
        }
        var changePerMeter := (levels[1] - levels[0]) / total;
        r := Gauged(baseHeight - adjustment - levels[0] + changePerMeter * distances[0]);
        assert r.airgap == baseHeight - adjustment - levels[0] + Correction(levels[0], levels[1], total, distances[0]);
      }
      airgap := Some(r.airgap);
    }
  }

  /** A throw part way through placing stops the placing for good. */
  lemma {:induction false} PlaceAllStop(g: Grouping, cs: seq<Vec3>, k: nat, start: Vec3, xWidth: real)
    requires k <= |cs| && PlaceAll(g, cs[..k], start, xWidth).thrown
    ensures PlaceAll(g, cs, start, xWidth) == PlaceAll(g, cs[..k], start, xWidth)
    decreases |cs|
  {
    if |cs| > k {
      assert cs[..|cs| - 1][..k] == cs[..k];
      PlaceAllStop(g, cs[..|cs| - 1], k, start, xWidth);
    } else {
      assert cs[..k] == cs;
    }
  }
}
