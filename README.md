# CombinationChart draw pass, modelled in Dafny

This project models the drawing core of Microcharts' `CombinationChart`. The chart overlays bar series and point/line series on one categorical axis. In each draw pass it does four things:

- it resets a per-series table of recorded points (`pointsPerSerie`);
- for each item, it either computes a bar rectangle or draws a dot and records the dot's point for its series;
- it may fill a translucent area under a bar;
- at the end of the content, it strokes one path through the recorded points of each series that has more than one. The path is straight or spline, and its colour is the series' own or a horizontal gradient of the entries' colours.

Modules:

- `Wrappers`: `Option`, used for nullable colours and optional results.
- `Drawing`: the values handed to the drawing surface: `Point`, `Size`, `Rect`, `Color` with `Byte` channels, `PathCommand` (`MoveTo`, `LineTo`, `CubicTo`), `Gradient`, `Paint` and `StrokedPath`. Coordinates are `real`.
- `Series`: `Entry`, and the series as a class `Serie` with constant fields. The table is keyed by the series object itself, so identity is reference identity. `IsBarSerie` is the source's `as ChartSerieCombinate` type test.
- `BarGeometry`: the pure rectangle arithmetic of `GetBarDrawingProperties` and `DrawBarArea`, and the position of a point item.
- `LinePath`: `CalculateCubicInfo`, and the path of `DrawSeriesLine` as a specification function `PathFor`. `BuildPath` is the command-by-command loop, proved equal to `PathFor`. Also `CreateXGradient` (`XGradient`) and the stroke paint.
- `Accumulator`: what the reset (`Seed`) and the append (`Record`) do to the table, with their properties.
- `CombinationCharts`: the chart class. It holds the table and the chart's properties, and has the three imperative operations, `DrawContent` (reset), `DrawBar` and `DrawSeriesLine`. Each is proved against a specification function (`Seed`, `Record`, `SeriesLines`). Beside the class are lemmas on the end-of-pass loop.
- `Scenarios`: worked concrete cases: a tall bar, reset-then-record, three-point paths, a three-colour gradient, and a single-point series.

How the source's exceptions are modelled:

- `Dictionary.Add` throws on a repeated series. `DrawContent` then returns `ok == false`, and the table keeps only the series added before the repeat.
- The dictionary indexer throws for an unregistered series. In `DrawBar` and `DrawSeriesLine` this also gives `ok == false`. What was drawn before the throw is still returned: the dot, or the strokes made so far.

`OnDrawContentEnd` (`Sources/Microcharts/Charts/CombinationChart.cs:62-66`) only calls the base class and then `DrawSeriesLine`. Its model is therefore `CombinationChart.DrawSeriesLine`.

Behaviour of the code as written that a reader might expect to be otherwise. The model follows the code:

- **Bar clamping and re-anchoring.** Line 90 already floors the height at `MinBarHeight`. So the `height < MinBarHeight` branch never runs, and a short bar is never re-anchored to the plot bottom. Its `y` is always `min(origin, barY)` (see `BarGeometry.ShortBarIsNotReanchored`). The dead branch also compares against `Margin + itemSize.Height`, but assigns from `headerHeight`. It is modelled as written.
- **Gradient span.** The gradient runs from the first point's x to the last point's x, not from the minimum to the maximum x. The two agree when the points go left to right (`LinePath.GradientSpansPoints`).
- **Straight mode.** Straight mode emits one `LineTo` per point, n in all. The first is a degenerate line back to the start. It does not emit one line per subsequent point.
- **Missing colour and entries.** A series with neither a colour nor entries raises no error in this core.

## Model

| member | source | states |
|---|---|---|
| `BarGeometry.BarDrawingProperties` | Sources/Microcharts/Charts/CombinationChart.cs:86-101 | x is barX − itemWidth/2; width is the bar width; y is always min(origin, barY); height ≥ MinBarHeight and ≥ \|origin − barY\|, equal to one of them; if the distance to the origin is at least MinBarHeight, the bar spans exactly from origin to barY |
| `BarGeometry.ShortBarIsNotReanchored` | Sources/Microcharts/Charts/CombinationChart.cs:89-98 | a bar whose value is within MinBarHeight of the origin gets height MinBarHeight and keeps y = min(origin, barY), whatever Margin and the plot bottom are: the re-anchoring branch is dead |
| `BarGeometry.BarAreaRect` | Sources/Microcharts/Charts/CombinationChart.cs:68-84 | nothing is drawn exactly when BarAreaAlpha is 0; otherwise the base is headerHeight for a positive value, else headerHeight + itemHeight; the rectangle spans vertically exactly from min(base, barY) to max(base, barY), with height ≥ 0, x = barX − itemWidth/2, width = bar width |
| `BarGeometry.ItemPoint` | Sources/Microcharts/Charts/CombinationChart.cs:55 | a point item's dot is at the value's y, half a bar width right of the slot's left edge |
| `BarGeometry.ItemPointCentredOnBar` | Sources/Microcharts/Charts/CombinationChart.cs:49-55 | the dot lies at the horizontal centre of the rectangle a bar at the same slot would get |
| `Accumulator.SeedRegistersEverySerie` | Sources/Microcharts/Charts/CombinationChart.cs:31-33 | the reset completes iff no series is listed twice; then the table's keys are exactly the listed series, each mapped to an empty list |
| `Accumulator.SeedStopsAtFailure` | Sources/Microcharts/Charts/CombinationChart.cs:31-33 | once `Add` has thrown on a repeated series, the remaining series change nothing |
| `Accumulator.FailedSeedKeepsPrefix` | Sources/Microcharts/Charts/CombinationChart.cs:31-33 | a failed reset stops at some series already seen earlier in the list, and leaves the table as the completed reset of the series before it |
| `Accumulator.Record` | Sources/Microcharts/Charts/CombinationChart.cs:57 | appending fails iff the series is unregistered; otherwise the keys are unchanged, the series' list grows by exactly one point at its end, its old points are kept, and every other series' list is unchanged |
| `CombinationCharts.CombinationChart.constructor` | Sources/Microcharts/Charts/CombinationChart.cs:10-27 | the table starts empty, the line width is 3, the line mode is spline, and the other properties are as given |
| `CombinationCharts.CombinationChart.DrawContent` | Sources/Microcharts/Charts/CombinationChart.cs:29-36 | the in-place reset loop leaves the table, and reports success, exactly as `Seed` of the chart's series prescribes |
| `CombinationCharts.CombinationChart.DrawBar` | Sources/Microcharts/Charts/CombinationChart.cs:38-60 | a bar series gets the `BarDrawingProperties` rectangle in its colour and the table is untouched; any other series, plain or combinate non-bar, gets a dot at `ItemPoint`; the dot's point is appended as `Record` states, and the call fails with the table unchanged iff the series is unregistered |
| `CombinationCharts.CombinationChart.DrawSeriesLine` | Sources/Microcharts/Charts/CombinationChart.cs:103-145 | the strokes emitted by the nested loops, and whether the loop went through every series, are exactly `SeriesLines` of the chart's series, table, line mode and line size |
| `CombinationCharts.LineGuard` | Sources/Microcharts/Charts/CombinationChart.cs:105-111 | no line at all in NoLine mode or with an empty table; otherwise, with every series registered, exactly one stroke per series having more than one recorded point, in series order, each built from that series' own points, and none for the others |
| `CombinationCharts.Eligible` | Sources/Microcharts/Charts/CombinationChart.cs:107-109 | every series selected for a line is listed, registered, and has more than one point |
| `CombinationCharts.EligibleMembers` | Sources/Microcharts/Charts/CombinationChart.cs:107-109 | a series is selected for a line iff it is listed, registered, and has more than one point |
| `CombinationCharts.SeriesStrokesOk` | Sources/Microcharts/Charts/CombinationChart.cs:107-111 | the series loop completes iff every listed series is in the table |
| `CombinationCharts.SeriesStrokesFollowEligible` | Sources/Microcharts/Charts/CombinationChart.cs:107-142 | with every series registered, the loop's strokes are, one for one and in order, the strokes of the selected series |
| `CombinationCharts.SeriesStrokesStopAtFailure` | Sources/Microcharts/Charts/CombinationChart.cs:107-111 | once a series is found missing from the table, the remaining series add nothing |
| `CombinationCharts.RegisteredPassCompletes` | Sources/Microcharts/Charts/CombinationChart.cs:29-111 | after a completed reset, any table with the same keys, as appending keeps them, lets the end-of-pass loop go through every series |
| `LinePath.CalculateCubicInfo` | Sources/Microcharts/Charts/CombinationChart.cs:147-155 | the curve from point i ends at point i+1; its first control point is 0.8·itemWidth to the right of point i, and its second is 0.8·itemWidth to the left of point i+1, both at their point's height |
| `LinePath.BuildPath` | Sources/Microcharts/Charts/CombinationChart.cs:124-138 | the path built command by command in the `for` loop equals `PathFor`: a move to the first point, then the commands of every loop iteration |
| `LinePath.SplineCommandsAt` | Sources/Microcharts/Charts/CombinationChart.cs:126-133 | after k spline iterations there are exactly k commands; the i-th is the cubic from point i to point i+1 with the fixed horizontal control offsets |
| `LinePath.SplinePathShape` | Sources/Microcharts/Charts/CombinationChart.cs:124-133 | a spline path over n points is MoveTo(p[0]) followed by exactly n−1 cubics; the i-th has control1 = p[i] + (0.8·itemWidth, 0), control2 = p[i+1] − (0.8·itemWidth, 0) and endpoint p[i+1] |
| `LinePath.StraightCommandsAt` | Sources/Microcharts/Charts/CombinationChart.cs:134-137 | after k straight iterations the commands are lines to points 0 … k−1, in order |
| `LinePath.StraightPathShape` | Sources/Microcharts/Charts/CombinationChart.cs:124-137 | a straight path over n points is MoveTo(p[0]) followed by exactly n lines, to p[0], p[1], …, p[n−1], so the first line is degenerate |
| `LinePath.NoLineCommandsEmpty` | Sources/Microcharts/Charts/CombinationChart.cs:126-138 | in NoLine mode, loop iterations append nothing |
| `LinePath.NoLinePathIsMoveOnly` | Sources/Microcharts/Charts/CombinationChart.cs:124-138 | in NoLine mode the path is only the move to the first point |
| `LinePath.PathVisitsPointsInOrder` | Sources/Microcharts/Charts/CombinationChart.cs:124-138 | in either drawing mode the path starts at the first point, reaches every recorded point in order as a command target, and ends at the last point |
| `LinePath.XGradient` | Sources/Microcharts/Charts/CombinationChart.cs:157-169 | the gradient runs from (first point's x, 0) to (last point's x, 0); it has one colour per entry in entry order, each with the given alpha; the colour is the series colour if there is one, else the entry's own; no explicit stop positions; clamp tiling |
| `LinePath.GradientSpansPoints` | Sources/Microcharts/Charts/CombinationChart.cs:159-165 | when the points go left to right, every point lies between the gradient's start x and end x |
| `LinePath.StrokePaint` | Sources/Microcharts/Charts/CombinationChart.cs:112-122 | the paint is an anti-aliased stroke of width LineSize; a series with a colour uses that colour and no shader; otherwise white, overlaid by the gradient of the entries' own colours at alpha 255 |
| `Scenarios.TallBarIsNotClamped` | Sources/Microcharts/Charts/CombinationChart.cs:86-101 | origin 100, barY 40, MinBarHeight 4 gives a bar of height 60 at y 40 |
| `Scenarios.ResetThenRecord` | Sources/Microcharts/Charts/CombinationChart.cs:31-57 | resetting with series A and B and recording p1 for A gives A ↦ [p1] and B ↦ []; recording for a third series C fails |
| `Scenarios.ThreePointSpline` | Sources/Microcharts/Charts/CombinationChart.cs:124-155 | points (0,10), (10,0), (20,10) with item width 10 give two cubics with control offsets ±8 |
| `Scenarios.ThreePointStraight` | Sources/Microcharts/Charts/CombinationChart.cs:124-137 | the same points in straight mode give a move and three lines, the first back to (0,10) |
| `Scenarios.ThreeEntryGradient` | Sources/Microcharts/Charts/CombinationChart.cs:157-169 | red, green and blue entries with no series colour give exactly those three opaque colours, in order, with clamp tiling |
| `Scenarios.SinglePointGetsNoLine` | Sources/Microcharts/Charts/CombinationChart.cs:105-111 | a series with a single recorded point gets no stroke |

## Left out

- The drawing surface: the SkiaSharp calls (`DrawRect`, `DrawPoint`, `DrawPath`), the `SKPaint`, `SKPath` and `SKShader` objects, and their `using` disposal. This is foreign rendering, so the model returns the data that would be passed to these calls.
- The axis-based base class: layout, axes, labels, `valueLabelSizes`, `base.DrawContent` and `base.OnDrawContentEnd`. These collaborators are not part of this model. Their calls are the chart's method invocations, and the base class's `Series` and `Margin` are fields of the chart.
- The canvas and the width and height passed to `DrawContent`. They only flow to the base class.
- `BarGeometry.BarAreaRect`: does not model the fill colour's alpha `(byte)(BarAreaAlpha * AnimationProgress)`. That is a float-to-byte truncation tied to animation progress; only the `BarAreaAlpha > 0` guard and the rectangle are modelled.
- `PointSize` and `PointMode`. They only parameterise the foreign dot drawing.
- The default values of `BarAreaAlpha` and `MinBarHeight` come from `DefaultValues`, which is not part of this model. They are constructor parameters.
- Float rounding. Coordinates are `real`, so `itemSize.Width * 0.8f` is exactly 0.8·width.
- How the rendering backend treats a gradient with fewer than two colours. That is backend behaviour, not this core's.
- The unused `rangeX` in `CreateXGradient`. It is computed and never read.
