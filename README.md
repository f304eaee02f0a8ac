# airgap_vis in Dafny

A verified model of the computational core of airgap_vis. airgap_vis visualises
the air gap under a bridge: how much vertical clearance a vessel has at each
point across a waterway.

The model covers three programs:

- **`AirGapPoints` in `airgap_vis/airgap.py`.** It works on a classified
  lidar point cloud between a western and an eastern end point. It refines the
  ends inward to solid ground, bins the points into a contour of lowest
  obstruction heights, samples a depth profile from a bathymetry raster, and
  rasterises a background image. The image takes the nearest point per pixel
  for each viewing direction, pads the band the water occupies with averaged
  colour, and flattens runs of obstructed columns.
- **The QGIS plugin `AirGapVis` in `airgap_vis/airgap_vis.py`.** It picks the
  two end points from a vector layer, normalises output file names, keeps the
  per-direction image adjustments, paints the clearance bars of the simulated
  view for a vessel height, and runs the whole pipeline from `generate`.
- **The browser viewer `airgap.js`.** It covers the orientation switch and
  which bridge picture and profile order it implies, and groups contour
  heights into screen columns. It looks up the clearance under a column and
  keeps the last good air gap when a fetch returns 0. `WaterGageVisualization`
  derives the air gap from gauge levels and reports the gauges that are down.

## Files and modules

| file | module | contents |
|---|---|---|
| `common.dfy` | `Common` | options, directions, points, ends, reverse, min/max, `int()` truncation |
| `raster.dfy` | `Raster` | `find_color` over `array2`, grid sizing and the rasterisation spec |
| `compositor.dfy` | `Compositor` | `average_and_color`, `color_obstructions`, `numpy.fliplr` |
| `points.dfy` | `Points` | the class `AirGapPoints`: `refine_ends`, `create_contour`, `create_depth`, `create_image` |
| `viewer.dfy` | `Viewer` | the class `AirGapVisualization` of `airgap.js` and the gauge variant |
| `plugin.dfy` | `Plugin` | the class `AirGapVis` of `airgap_vis.py` |

## How errors are modelled

- **Python errors become results.** A Python exception becomes an `Outcome`
  with a `Failure`. The cases are:
  - division by zero;
  - `numpy.min` of an empty selection;
  - `int()` of an infinite value;
  - the unbound `height` when the first contour bin is empty;
  - the unbound loop variable `y` when `average_and_color` gets an empty band.
- **Loops that may not end get fuel.** `refine_ends` may loop forever, so it
  takes a `fuel` bound. It reports `OutOfFuel` when the bound runs out.
- **JavaScript `TypeError`s become values.** A thrown `TypeError` becomes the
  value `Thrown` (a `Reading`) or the flag `thrown`. A `NaN` result becomes the
  value `NaN`.
- **Rotation is a parameter.** `rotate_points` and `rotate_ends` are the
  functions `rotate` and `unrotate`.
- **Other collaborators are parameters too:**
  - the pyproj reprojection (`project`);
  - the QGIS raster sampler (`sample`, `noData`);
  - the layer's features (`Feature`).

## Quirks kept as written

The code behaves as follows, and the model keeps each of these:

- **The east-to-west depth profile is not the reverse of the west-to-east one.**
  `create_depth` swaps start and end and walks the same half-open range. The
  east-to-west sample at `i` is therefore the west-to-east sample at
  `steps + 2*padding - i`, shifted by one (`Points.DepthDirectionsShifted`).
- **`generate` reads the right padding from the left-padding box.**
  `padding_right` is read from `paddingLeftSpinBox` (`airgap_vis/airgap_vis.py:353`).
  `Plugin.AirGapVis.Generate` keeps this.
- **`color_obstructions` has three quirks** (see `Compositor.ColorObstructions`):
  - it scans `range(padding_right, xl - padding_left)`, so the paddings are
    swapped;
  - it flushes a trailing run only when `start_i` is truthy, so not at column 0;
  - the flushed run stops one column short of the last column.
- **A first contour bin with no point is an error.** It ends in
  `Failed(UnboundHeight)` rather than a contour.
- **A short loop with a progress bar divides by zero.** `create_contour` and
  `find_color` take `update_interval = int(n / bar_steps)` and, from the second
  item on, `i % update_interval`. With a progress bar and fewer than
  `bar_steps` items (but at least 2) the interval is 0 and the loop stops with
  `ZeroDivisionError` (`Points.TicksByZeroMeaning`). `generate` passes
  `bar_steps` 33, 34 and 33, so a width of 2 to 32 pixels stops the contour,
  and a picture window of 2 to 33 (or 32) points stops the picture
  (`Points.ContourProgressEffect`, `Points.RenderedProgressEffect`).

## Model

| member | source | states |
|---|---|---|
| Common.Reverse | airgap_vis/airgap.py:131-132 | the reversed list has the same length and element i is element n-1-i of the input |
| Common.ReverseInvolution | airgap_vis/airgap_vis.py:252-259 | reversing twice restores the list, so the reversed copies never disturb the stored profiles |
| Common.MinOf | airgap_vis/airgap.py:193 | `min`/`numpy.min`: absent exactly for an empty list, otherwise an element no larger than any element |
| Common.MaxOf | airgap_vis/airgap.py:249-250 | `numpy.max`: absent exactly for an empty list, otherwise an element no smaller than any element |
| Common.TruncToInt | airgap_vis/airgap.py:257 | Python `int()` on a float truncates toward zero: floor for non-negative values, ceiling for negative ones |
| Raster.CellAfterUnhit | airgap_vis/airgap.py:28-58 | a cell no point maps to keeps its colour and tracked depth |
| Raster.CellAfterNearest | airgap_vis/airgap.py:41-58 | a cell whose points all beat the initial depth ends opaque (alpha 255) with the colour and depth of a point of that cell that no other point of the cell is strictly nearer than, and that is strictly nearer than every earlier point of the cell (ties keep the first seen) |
| Raster.FindColor | airgap_vis/airgap.py:21-59 | the colour pass of `find_color` leaves every cell equal to the in-order fold of its own points, overwriting only when a point is strictly nearer (smaller y west-to-east, larger y east-to-west) |
| Raster.MarkOccupied | airgap_vis/airgap.py:38-39 | black-and-white mode: a cell becomes False exactly when some point maps to it, every other cell is unchanged |
| Raster.Depths | airgap_vis/airgap.py:249-252 | the depth-axis values of the points, one per point in order |
| Raster.InitialClosest | airgap_vis/airgap.py:249-252 | the initial `closest_y` (max+1 west-to-east, min-1 east-to-west) is beaten by every point |
| Raster.ColExtent | airgap_vis/airgap.py:241 | the largest column is attained by some point and bounds every point's column |
| Raster.RowExtent | airgap_vis/airgap.py:242 | the largest row is attained by some point and bounds every point's row |
| Raster.RasterizedUnhit | airgap_vis/airgap.py:244-254 | after the pass, a cell no point maps to is transparent (alpha 0) |
| Raster.RasterizedNearest | airgap_vis/airgap.py:244-254 | after the pass, a cell some point maps to is opaque with the colour of the first of its nearest points |
| Raster.NewColorGrid | airgap_vis/airgap.py:241-254 | a fresh grid one row and column beyond the largest bin, each cell equal to the rasterisation of the points |
| Compositor.Cells | airgap_vis/airgap.py:293-297 | the snapshot of a 2-D array as rows has the array's shape and cells |
| Compositor.GridsEqual | airgap_vis/airgap.py:334-338 | two grids of one shape that agree cell by cell are equal |
| Compositor.SliceIndex | airgap_vis/airgap.py:294-297 | a numpy slice bound: kept inside the axis, counted from the end when negative, clamped to 0 or n otherwise |
| Compositor.Clip | airgap_vis/airgap.py:294-297 | a numpy slice of an axis of length n is the clamped range, empty exactly when the clamped start is not before the clamped stop |
| Compositor.RowSumBound | airgap_vis/airgap.py:299-301 | a row's channel sum over opaque cells is at most 255 times their number |
| Compositor.RegionSumBound | airgap_vis/airgap.py:299-301 | the same bound over a rectangle |
| Compositor.SumRow | airgap_vis/airgap.py:299-301 | one row's red, green and blue sums over its opaque cells and their count, computed cell by cell |
| Compositor.Mean | airgap_vis/airgap.py:303-314 | the mean stored into `uint8` is 0 with no opaque cell and otherwise the truncated quotient of sum by count |
| Compositor.StopRow | airgap_vis/airgap.py:325-330 | the inner scan stops at the first opaque cell of the column, or at the last row when there is none |
| Compositor.AverageAndColorShape | airgap_vis/airgap.py:293-338 | `average_and_color` keeps the grid's shape |
| Compositor.AverageAndColorFrame | airgap_vis/airgap.py:316-338 | columns outside the clipped column range never change |
| Compositor.AverageAndColorLower | airgap_vis/airgap.py:316-320 | with `draw_lower`, every cell below the rectangle in its columns gets the mean colour with the given alpha |
| Compositor.AverageAndColorColumn | airgap_vis/airgap.py:324-333 | in a column whose first opaque cell y is before the last row, the rectangle's cells above y get the mean colour and the rest keep theirs |
| Compositor.AverageAndColorColumnKept | airgap_vis/airgap.py:332-333 | a column with no opaque cell before the last row of the rectangle keeps every cell |
| Compositor.RegionMean | airgap_vis/airgap.py:299-314 | the loop computes the per-channel mean of the opaque cells of the rectangle with the given alpha |
| Compositor.FillColumn | airgap_vis/airgap.py:324-333 | one column's fill: the cells from the top of the rectangle to its first opaque cell take the colour unless that cell is the last row, and nothing else changes |
| Compositor.AverageAndColor | airgap_vis/airgap.py:293-338 | the whole call: it fails exactly when the row range is empty and the column range is not (the unbound `y`), and the new grid is the averaging and filling of the old one that `AverageAndColorGrid` defines |
| Compositor.AverageAndColorResult | airgap_vis/airgap.py:293-338 | a grid of the right shape whose cells follow the per-cell rule is the result of `average_and_color` |
| Compositor.ApplyRuns | airgap_vis/airgap.py:340-354 | applying a list of runs keeps the grid's shape |
| Compositor.ApplyRunsSnoc | airgap_vis/airgap.py:347-349 | one more run is one more `average_and_color` over that run's columns, after the earlier ones |
| Compositor.ApplyRunsFrame | airgap_vis/airgap.py:343-354 | runs that end before column x leave columns from x on untouched |
| Compositor.ScanRunsSound | airgap_vis/airgap.py:345-354 | every run found lies in the scanned range, each of its columns has a positive mean over the band, and it ends at a column with zero mean or just before the last scanned column |
| Compositor.ObstructionRunsSound | airgap_vis/airgap.py:345-354 | the runs of `color_obstructions` lie in `[padding_right, xl - padding_left)` and cover only obstructed columns |
| Compositor.ScanRunsStarts | airgap_vis/airgap.py:345-351 | every run found starts at the scan start or right after a column without data in the band |
| Compositor.ScanRunsComplete | airgap_vis/airgap.py:345-354 | a column with data that no run covers lies in a run still open at the end: it is the last scanned column, or the open run started at column 0 |
| Compositor.ObstructionRunsComplete | airgap_vis/airgap.py:345-354 | `color_obstructions` starts each run at `padding_right` or after an empty column, and misses an obstructed column only in the trailing run: its last column, or all of it when it starts at column 0 |
| Compositor.TrailingRunSkipsLastColumn | airgap_vis/airgap.py:353-354 | a run still open at the end is flushed as `[start_i, i)`, leaving out the last column |
| Compositor.BandSignKept | airgap_vis/airgap.py:345-351 | flattening earlier runs does not change whether a later column is obstructed |
| Compositor.FlattenRun | airgap_vis/airgap.py:348-349 | flattening one run of a band with rows applies exactly that run, and `average_and_color` does not stop |
| Compositor.ScanColumn | airgap_vis/airgap.py:345-351 | one loop step keeps the runs applied so far plus the runs still to come equal to the whole scan |
| Compositor.ColorObstructions | airgap_vis/airgap.py:340-354 | `color_obstructions` flattens, in order, exactly the runs of obstructed columns its scan finds |
| Compositor.MirrorGrid | airgap_vis/airgap.py:264-265 | `numpy.fliplr`: same rows, each reversed |
| Compositor.MirrorInvolution | airgap_vis/airgap.py:264-265 | mirroring twice restores the grid |
| Compositor.MirrorColumns | airgap_vis/airgap.py:264-265 | the mirrored array holds the mirrored grid |
| Points.Xyz | airgap_vis/airgap.py:369-379 | the rotated coordinates, one per point in order |
| Points.BandMin | airgap_vis/airgap.py:276-285 | the lowest height in a 0.1-wide band: absent exactly when the band is empty, otherwise attained by a band point and no larger than any band point's height |
| Points.PositionNext | airgap_vis/airgap.py:279 | stepping the start once moves every later position by one step |
| Points.SearchMeaning | airgap_vis/airgap.py:276-285 | a finished `while` loop passed n bands each with a point below the minimum height, then stopped at the first clear band or at the first empty band (where `numpy.min` raises) |
| Points.Advance | airgap_vis/airgap.py:276-285 | the loop as written computes the search outcome |
| Points.LaterLater | airgap_vis/airgap.py:276-285 | counting j moves and then k more is counting j + k moves |
| Points.RefineMeaning | airgap_vis/airgap.py:273-291 | refined ends only move inward (west grows, east shrinks), keep their y, and each ends on a band whose lowest point clears the minimum height |
| Points.BinMin | airgap_vis/airgap.py:117-122 | the lowest height of a contour bin: absent exactly for an empty bin, otherwise attained and minimal |
| Points.Floor | airgap_vis/airgap.py:123-124 | a contour height is 0 or at least the minimum height |
| Points.HeightsUpTo | airgap_vis/airgap.py:110-129 | when defined, the contour has one height per bin |
| Points.HeightsStep | airgap_vis/airgap.py:117-127 | one more bin appends its floored minimum, or repeats the previous height for an empty bin, or fails on an empty first bin |
| Points.HeightsDefined | airgap_vis/airgap.py:117-127 | the contour fails exactly when there are bins and the first one is empty |
| Points.HeightsMeaning | airgap_vis/airgap.py:110-129 | each height is 0 or at least the minimum, a non-empty bin holds its floored minimum, an empty bin repeats its left neighbour |
| Points.TraceHeights | airgap_vis/airgap.py:107-129 | the `for i in range(steps)` loop yields exactly when the first bin has a point, and then yields the `Coordinates` of the heights `HeightsUpTo` defines |
| Points.ContourEndpoints | airgap_vis/airgap.py:86-91 | bin 0 sits at the western end and bin `steps` at the eastern end |
| Points.Coordinates | airgap_vis/airgap.py:125-127 | each contour point is the reprojected position `west + i*(dx/steps, dy/steps)` with its height |
| Points.CoordinatesStep | airgap_vis/airgap.py:125-127 | appending a height appends its reprojected point |
| Points.TicksByZeroMeaning | airgap_vis/airgap.py:105-112 | the progress-bar test `i % int(n / bar_steps)` divides by zero exactly when a bar is shown and 2 <= n < `bar_steps` |
| Points.ContourProgressEffect | airgap_vis/airgap.py:105-112 | a shown progress bar leaves the contour's outcome as it is, except that a contour of 2 to `bar_steps - 1` bins that would be traced stops with a division by zero |
| Points.RenderedProgressEffect | airgap_vis/airgap.py:21-31 | a shown progress bar leaves the picture's outcome as it is, except that a picture from a window of 2 to `bar_steps - 1` points that would be drawn stops with a division by zero |
| Points.ContourDirections | airgap_vis/airgap.py:131-140 | both directions succeed or fail together; the contour has `steps` entries, the east-to-west one is the exact reverse, and the length is the same |
| Points.DepthProfile | airgap_vis/airgap.py:163-189 | `steps + padding_left + padding_right` samples, sample i taken at `start - padding_left*d + i*d`, no-data or failed samples becoming 0.0 |
| Points.Step | airgap_vis/airgap.py:163-164 | `steps` of the step cover exactly the distance from start to end |
| Points.StepReversed | airgap_vis/airgap.py:156-164 | swapping start and end negates the step |
| Points.DepthPositionAt | airgap_vis/airgap.py:166-182 | the loop's `start_x + i*dx` (and y) is the i-th sample position |
| Points.SampleDepths | airgap_vis/airgap.py:163-189 | the sampling loop builds exactly the depth profile `DepthProfile` defines |
| Points.DepthDirectionsShifted | airgap_vis/airgap.py:156-181 | the east-to-west profile at i equals the west-to-east profile at `steps + 2*padding - i`, a reversal shifted by one sample |
| Points.EightBit | airgap_vis/airgap.py:228-230 | `(c/65536)*256` stored as `uint8` is c divided by 256, truncated |
| Points.Turned | airgap_vis/airgap.py:208 | the rotated cloud: the same points with their coordinates rotated |
| Points.Window | airgap_vis/airgap.py:219-225 | every selected point lies between the padded west and east x |
| Points.WindowComplete | airgap_vis/airgap.py:219-225 | every point between the padded west and east x is selected |
| Points.WindowEmpty | airgap_vis/airgap.py:219-225 | an inverted window selects nothing |
| Points.Xs | airgap_vis/airgap.py:232 | the x coordinates of the selection |
| Points.Zs | airgap_vis/airgap.py:236 | the heights of the selection |
| Points.Quotient | airgap_vis/airgap.py:233-238 | an offset from the minimum over the scale is non-negative, and 0 at the minimum |
| Points.Bin | airgap_vis/airgap.py:234 | `numpy.floor` of a non-negative value: the greatest whole number not above it |
| Points.ToSample | airgap_vis/airgap.py:232-239 | a point's pixel cell: its row is at least the bottom padding, the leftmost point is in column 0, the lowest point is on row `padding_bottom`, and the depth axis is kept |
| Points.Samples | airgap_vis/airgap.py:232-239 | the pixel cell of each selected point, in order |
| Points.SamplesAnchored | airgap_vis/airgap.py:232-239 | after subtracting the minima, some point is in column 0, some point is on the bottom-padding row, and none is below it |
| Points.Scale | airgap_vis/airgap.py:215 | metres per pixel times the width is the rotated span; positive exactly when west is before east, zero exactly when they coincide |
| Points.ReversedSectionSelectsNothing | airgap_vis/airgap.py:215-225 | when the refined ends cross, the window is empty (so the later `numpy.min` raises) |
| Points.ImageLayoutMeaning | airgap_vis/airgap.py:215-239 | a successful layout has positive scale, padding at least the requested one, and a non-empty selection anchored at column 0 and the bottom-padding row |
| Points.RasterGrid | airgap_vis/airgap.py:241-254 | the rasterised grid has one row and column beyond the largest bin |
| Points.RasterImage | airgap_vis/airgap.py:241-255 | a fresh array holding the rasterised grid |
| Points.Padded | airgap_vis/airgap.py:259-260 | the two padding calls keep the grid's shape when they succeed |
| Points.PaddedAfterLeft | airgap_vis/airgap.py:259-260 | after a successful left padding, the outcome is that of the right padding on its result |
| Points.PadBand | airgap_vis/airgap.py:259-260 | padding one side's band fails exactly when the band has no rows but has columns, and otherwise is `average_and_color` |
| Points.PadSides | airgap_vis/airgap.py:259-260 | both padding calls succeed exactly when `Padded` does, and then leave its grid |
| Points.PadAndFinish | airgap_vis/airgap.py:257-265 | from the rasterised grid: the paddings' error, or the padded, flattened and oriented picture |
| Points.FinishImage | airgap_vis/airgap.py:262-265 | the obstruction flattening then the west-to-east mirroring give the grid `Finished` defines |
| Points.Orient | airgap_vis/airgap.py:264-265 | a west-to-east picture is mirrored, an east-to-west one kept |
| Points.DrawImage | airgap_vis/airgap.py:241-265 | the array built holds the grid `ImageGrid` defines, or the run fails with its error |
| Points.RenderImage | airgap_vis/airgap.py:215-271 | from the window on, `create_image` yields the scale, the adjusted bottom padding and the picture `Rendered` defines, or its error, including `find_color`'s progress-bar division by zero |
| Points.AirGapPoints.constructor | airgap_vis/airgap.py:62-71 | a new cloud keeps the points and the ends, not refined, maximum depth 0, no contour or depths |
| Points.AirGapPoints.RefineEnds | airgap_vis/airgap.py:273-291 | `refine_ends` returns the refined rotated ends, and stores their unrotated form and `refined_ends = True` only on success |
| Points.AirGapPoints.TraceContour | airgap_vis/airgap.py:86-150 | the contour loop stores exactly the coordinates `Contour` defines and returns the section length, or fails (zero steps or `bar_steps`, unbound first height, progress-bar division) and keeps the old contour |
| Points.AirGapPoints.CreateContour | airgap_vis/airgap.py:73-150 | `create_contour`: a vertical section divides by zero and changes nothing; a failed refinement changes nothing; after a successful refinement the refined ends are stored and marked even when tracing then fails, which keeps the old contour |
| Points.AirGapPoints.CreateDepth | airgap_vis/airgap.py:152-196 | `create_depth`: with steps > 0 it stores the depth profile `DepthProfile` defines and its minimum as `maximum_depth`; with steps = 0 it changes nothing (the Python-float case, see Left out) |
| Points.AirGapPoints.CreateImage | airgap_vis/airgap.py:198-271 | `create_image`: a vertical section divides by zero and changes nothing; it refines only when asked and not yet refined, a failed refinement changing nothing; after a successful refinement the refined ends are stored and marked whatever the picture's outcome, and the result shows `Rendered` on the current ends |
| Viewer.Flip | airgap.js:383-391 | up and down swap |
| Viewer.BridgeImage | airgap.js:381-398 | the `east_west` picture is shown exactly when the effective view is up with `east_west` upstream or down with `west_east` upstream |
| Viewer.LoadedProfile | airgap.js:400-418 | loaded depths (or coordinates) are reversed exactly when the initial view shows east to west, and kept otherwise |
| Viewer.ImageAgreesWithProfiles | airgap.js:381-439 | at orientation 0 the picture is `east_west` exactly when the loaded profile starts at the source's last entry |
| Viewer.Toggled | airgap.js:448-451 | the toggle `(o + 180) % 360` stays in [0, 360) and always changes the orientation |
| Viewer.ToggleInvolution | airgap.js:448-451 | toggling twice restores the orientation |
| Viewer.ToggleFlipsImage | airgap.js:381-398 | between 0 and 180 a toggle flips the effective view and switches the picture |
| Viewer.OrientationLabel | airgap.js:549-566 | the caption reads "Viewing Upstream " exactly when the effective view is up |
| Viewer.Empties | airgap.js:320-322 | `waterwayWidth` empty groups |
| Viewer.PlaceAllBuckets | airgap.js:324-333 | when no index falls outside, group i holds, in order, the heights of the coordinates whose `parseInt(x/xWidth)` is i |
| Viewer.PlaceAllThrows | airgap.js:324-333 | placing throws exactly when some coordinate's index is NaN or outside the groups |
| Viewer.PlaceHeights | airgap.js:324-333 | the push loop yields exactly the placement `PlaceAll` defines: the groups and whether it threw, the groups as they were at the throw |
| Viewer.GroupedMeaning | airgap.js:311-335 | a grouping that does not throw has `waterwayWidth` groups, each holding its bucket of all but the last coordinate, and the last group also holds the last height |
| Viewer.LastFilled | airgap.js:496-498 | walking left stops at a non-empty group with only empty groups passed, or at -1 |
| Viewer.ValueAtMeaning | airgap.js:493-503 | a lookup that does not throw uses the nearest non-empty group at or left of the clamped position: 0 if its minimum is 0, else minimum minus `gapChange` (NaN without an air gap) |
| Viewer.NextAirGap | airgap.js:519-530 | a fetched 0 keeps a truthy previous air gap and otherwise stores 0; any other value is stored; a failed fetch changes nothing |
| Viewer.AirGapNeverLost | airgap.js:519-530 | once truthy, the air gap stays truthy over any sequence of fetches |
| Viewer.Levels | airgap.js:645-649 | at most one level per gauge |
| Viewer.DownGauges | airgap.js:645-653 | with no gauge down, every gauge has a level |
| Viewer.LevelsAllUp | airgap.js:645-649 | with no gauge down, level k is gauge k's `primary` reading times 0.3048 |
| Viewer.ReadGauges | airgap.js:645-654 | the gauge loop collects exactly `Levels` and `DownGauges`, in order |
| Viewer.SeriesJoin | airgap.js:668-670 | the loop's text is the names joined by ", " and a trailing ", " |
| Viewer.JoinSnoc | airgap.js:668-670 | joining one more name appends the separator and the name |
| Viewer.OxfordComma | airgap.js:667-673 | three or more down gauges read "gages A, B, ..., and Z" |
| Viewer.BuildDownMessage | airgap.js:656-676 | the message is "gage A" for one, "gages A and B" for two, and the serial-comma list for more |
| Viewer.Correction | airgap.js:687-688 | gauges at the same level need no correction |
| Viewer.SumOf | airgap.js:5-7 | `Math.sum` adds the values left to right, giving `Sum` |
| Viewer.GaugeAirGapMeaning | airgap.js:677-689 | when the first two gauges agree the air gap is base minus adjustment minus the first level |
| Viewer.GaugeDownMeaning | airgap.js:656-677 | any down gauge gives the message and no air gap |
| Viewer.AirGapVisualization.constructor | airgap.js:15-28 | a new viewer: orientation 0, the initial caption and picture, no air gap, nothing loaded |
| Viewer.AirGapVisualization.GapChange | airgap.js:541-543 | `gapChange + airgap == baseHeight`, absent exactly when there is no air gap |
| Viewer.AirGapVisualization.SetOrientation | airgap.js:448-451 | the orientation is toggled and the caption and picture follow it |
| Viewer.AirGapVisualization.LoadDepths | airgap.js:400-418 | stores the loaded depths in viewing order, or keeps them on a failed fetch |
| Viewer.AirGapVisualization.LoadHeights | airgap.js:420-439 | stores the coordinates in viewing order and appends their heights, or keeps both on a failed fetch |
| Viewer.AirGapVisualization.GroupHeights | airgap.js:311-335 | the groups built, and whether it throws, are those `Grouped` defines |
| Viewer.AirGapVisualization.ValueForPosition | airgap.js:493-503 | the loop computes the specified lookup |
| Viewer.AirGapVisualization.LoadAirGap | airgap.js:505-531 | stores the next air gap by the retention rule and returns it, and shows the reading's date text; a failed fetch returns 0 and changes neither |
| Viewer.AirGapVisualization.LoadGaugeAirGap | airgap.js:630-692 | computes the gauge air gap; down gauges set the message, no gauge sets "No Gage", one or more readable gauges set the first gauge's date text, and the air gap is stored only when computed |
| Viewer.PlaceAllStop | airgap.js:324-333 | after a throw, later coordinates change nothing |
| Plugin.CandidatesMeaning | airgap_vis/airgap_vis.py:221-227 | a point is a candidate exactly when a single-type point feature intersecting the cloud's bounds sits there |
| Plugin.EndPointsMeaning | airgap_vis/airgap_vis.py:229-237 | there is no error exactly with two candidates, which come back western first as a permutation of the candidates; otherwise no points and the "Too many"/"Not enough" message |
| Plugin.DetermineEndPoints | airgap_vis/airgap_vis.py:216-237 | the loop and the decision compute the specified end points and message |
| Plugin.JsonName | airgap_vis/airgap_vis.py:168-171 | the name ends in ".json" or ".geojson"; ".json" is appended exactly when it ended in neither |
| Plugin.PngName | airgap_vis/airgap_vis.py:184-187 | the name ends in ".png"; ".png" is appended exactly when it did not |
| Plugin.NamesIdempotent | airgap_vis/airgap_vis.py:168-195 | normalising a normalised name changes nothing |
| Plugin.ProfilesFor | airgap_vis/airgap_vis.py:252-259 | reversed copies when the requested direction differs from the stored one, the stored lists otherwise |
| Plugin.BarHeights | airgap_vis/airgap_vis.py:271 | each column's height is `int(metres/scale)` |
| Plugin.LastPositiveMeaning | airgap_vis/airgap_vis.py:266-281 | the carried height is the last positive height so far, or 0 when there is none |
| Plugin.ClearanceBarsMeaning | airgap_vis/airgap_vis.py:266-281 | column i's bar is green exactly when its height is positive and the vessel is lower than the contour; a positive height is drawn at its height, otherwise a red bar at the last positive height to the left (0 if none) |
| Plugin.ClearanceColumn | airgap_vis/airgap_vis.py:268-281 | one column's height is `int(metres/scale)` and its bar is the specified one for that height and the carried height |
| Plugin.DepthBars | airgap_vis/airgap_vis.py:261-264 | one bottom bar per depth, from `int(abs(depth)/scale)` below the waterline down to the image's bottom |
| Plugin.ColorImage | airgap_vis/airgap_vis.py:239-285 | the rectangles painted are water, then depth bars, then clearance bars, over the profiles for the requested direction |
| Plugin.PaintDepths | airgap_vis/airgap_vis.py:261-264 | the loop paints the specified depth bars |
| Plugin.PaintClearance | airgap_vis/airgap_vis.py:266-281 | the loop with `previous_contour_height` paints the specified clearance bars |
| Plugin.DepthLayer | airgap_vis/airgap_vis.py:261-264 | the depth bars are painted exactly when the bathymetry box is checked |
| Plugin.ClearanceLayer | airgap_vis/airgap_vis.py:266-281 | the clearance bars are painted exactly when the vessel height is positive |
| Plugin.ClearanceBarsStep | airgap_vis/airgap_vis.py:270-281 | one column appends one bar |
| Plugin.LastPositiveStep | airgap_vis/airgap_vis.py:273-279 | a positive height becomes the carried height, otherwise it is kept |
| Plugin.Adjusted | airgap_vis/airgap_vis.py:287-289 | only the named adjustment is replaced |
| Plugin.AirGapVis.constructor | airgap_vis/airgap_vis.py:72-89 | ten enhancement steps, west-to-east, and brightness, contrast, saturation 1 and sharpness 0 for both directions |
| Plugin.AirGapVis.SelectContourFile | airgap_vis/airgap_vis.py:165-171 | a chosen name is stored normalised to JSON; a cancelled dialog changes nothing |
| Plugin.AirGapVis.SelectDepthFile | airgap_vis/airgap_vis.py:173-179 | as for the contour file |
| Plugin.AirGapVis.SelectBackgroundFile | airgap_vis/airgap_vis.py:181-195 | a chosen name is stored normalised to PNG in that direction's field only |
| Plugin.AirGapVis.AdjustmentChanged | airgap_vis/airgap_vis.py:287-290 | stores `value / enhancement_steps` under that direction and adjustment and nothing else |
| Plugin.ContourStep | airgap_vis/airgap_vis.py:383-384 | a traced contour has one point per pixel of width and leaves the ends marked refined when refinement was asked; without refinement the ends stay and the contour is the one `Contour` defines with `bar_steps` 33 |
| Plugin.PictureStep | airgap_vis/airgap_vis.py:388-393 | a vertical section fails; on success the east-to-west picture shows `Rendered` on the ends as possibly refined by this call, the west-to-east one on the ends that call left, with `bar_steps` 34 and 33 |
| Plugin.DepthStep | airgap_vis/airgap_vis.py:385-387 | with the box checked the specified depth profile is stored, with the right padding equal to the left; otherwise nothing changes; the maximum depth stays at or below 0 |
| Plugin.DepthsAndPictures | airgap_vis/airgap_vis.py:385-393 | after a traced contour: the optional depths, then both pictures from the same ends; a completed run keeps the object's contour and depths and the west-to-east picture's scale and padding, and the maximum depth stays at most 0 |
| Plugin.Pipeline | airgap_vis/airgap_vis.py:350-396 | a completed run records the dialog's width and bottom padding, the right padding equal to the left, the scale and adjusted padding of the west-to-east picture, the object's contour (one point per pixel) and depths, and both pictures as rendered from the final ends; the maximum depth stays at most 0 |
| Plugin.AirGapVis.Generate | airgap_vis/airgap_vis.py:340-432 | `generate` warns and returns before any work unless exactly two end points are found; a completed run stores the dialog's values, with the right padding taken from the left-padding box, and a contour of one point per pixel |

## Left out

- Rotation (`rotate_points`, `rotate_ends`, the `atan(dy/dx)` angle) is scipy and trigonometry; it is the parameters `rotate` and `unrotate`. The model does not capture that the cloud is rotated in place and left rotated when an exception escapes.
- The pyproj reprojection, the QGIS raster sampler, `polygonBounds().intersects` and laspy reading are foreign calls; they are parameters or fields of `Feature`.
- PIL's `rotate(180)`, `ImageEnhance`, `ImageQt`, `json.dump` and every file write are I/O; the model stops at the mirrored grid and the rectangle list.
- Qt and QGIS UI (dialogs, `QPainter`, the progress bars' values and formats, `processEvents`, menus, `enhance_image`, `update_simulated_visualization`, `bathymetry_changed`) is left out.
- Black-and-white mode is modelled by `Raster.MarkOccupied` alone; `create_image` is modelled in colour mode, the only mode `generate` uses.
- Points.AirGapPoints.RefineEnds: `refine_ends` may loop forever; the model takes a fuel bound and reports `OutOfFuel` instead of not returning.
- Points.AirGapPoints.CreateContour: a zero step count or a zero span raises only with Python-float ends; with numpy-float ends numpy gives inf or NaN instead. The model always raises.
- Points.AirGapPoints.CreateDepth: with steps = 0 the model changes nothing, which is what Python-float ends give (`ZeroDivisionError` before any assignment). With numpy-float ends, such as refined ones, the division gives inf or NaN instead: the NaN-position samples are stored in `depths`, and `maximum_depth` is set unless both paddings are 0 (then `min([])` raises after `depths = []` is stored). The model does not capture that case.
- Points.AirGapPoints.CreateImage: requires a positive width and a maximum depth of at most 0. A positive maximum depth would give a negative bottom padding, which numpy reads as counting from the end.
- Points.RenderImage: the same two requirements as `CreateImage`.
- Plugin.AirGapVis.Generate: requires every sampled depth to be at most 0, so that `create_image` meets its requirement. It does not model the laz backend warning path. It states the stored values and the contour length; the pictures are stated on the object by `Plugin.Pipeline`, as `Generate` keeps no handle on the object.
- `create_depth`'s `end_x`/`end_y` are never used; they are not modelled.
- Viewer.AirGapVisualization.LoadAirGap: the date text is the parameter `refreshText`; parsing the reading's time, `toLocaleString`, the clock and the stale-data symbol and colours are display.
- `options.initialOrientation` is taken to be "up" or "down" (`View`). Any other value gets the downstream caption, but at orientation 0 `_loadBridgeImage`, `_loadDepths` and `_loadHeights` match neither "up" nor "down", so they reverse nothing and show the `west_east` picture; the model does not capture such a value.
- Viewer.AirGapVisualization.GroupHeights: requires the groups to be empty, as they are on its only call, right after construction.
- Viewer.AirGapVisualization.ValueForPosition: takes a non-negative position, as its callers pass.
- `parseInt` is modelled as truncation toward zero; its string-based results for quotients below 1e-6 or from 1e21 up are not modelled.
- Viewer.AirGapVisualization.LoadGaugeAirGap: when the distances are empty (`Math.sum` throws) or sum to 0 (Infinity or NaN), the result is `Unusable` and the air gap is not stored, rather than the value JavaScript would store. The date text is the parameter `refreshText`: `toLocaleString`, the clock and the stale-data symbol and colours are display.
- `Number()` of a non-numeric gauge or air-gap text (NaN) is not modelled; readings arrive as numbers or as absent.
- Date parsing and formatting (the `refreshDate` text is a parameter), the DOM and canvas, `fetch`, XML parsing, the async flow and `_displayPosition` are I/O or display.
- Plugin.ColorImage: requires a positive scale, which `create_image` always returns on success.
- Float precision: the model works in exact reals, so rounding in numpy's float32 `closest_y` and in float division is not modelled.
