/** `CombinationChart`: the chart's draw-pass bookkeeping. The axis-based
    base class drives a pass by calling `DrawContent` (which resets the
    point table), then `DrawBar` once per item, then, at the end of the
    content, `DrawSeriesLine` (from `OnDrawContentEnd`). */
module CombinationCharts {
  import opened Wrappers
  import opened Drawing
  import opened Series
  import opened BarGeometry
  import opened LinePath
  import opened Accumulator

  /** What `DrawBar` puts on the canvas for one item, in the item's colour. */
  datatype ItemDrawing = BarRect(rect: Rect, color: Color) | Dot(point: Point, color: Color)

  /** The paths stroked at the end of a pass, and whether the pass went
      through every series (`false`: a series without a point list made the
      dictionary indexer throw). */
  datatype LinePass = LinePass(strokes: seq<StrokedPath>, ok: bool)

  /** The stroke of one series with the given recorded points. */
  function StrokeFor(s: Serie, points: seq<Point>, mode: LineMode, lineSize: real, itemSize: Size): StrokedPath
    requires |points| > 0
  {
    StrokedPath(PathFor(points, mode, itemSize), StrokePaint(s, points, lineSize))
  }

  /** The `foreach` over the series in `DrawSeriesLine`, as it runs: series
      with more than one point get a stroke, in series order; the first
      series missing from the table stops the pass. */
  function SeriesStrokes(series: seq<Serie>, table: Table, mode: LineMode, lineSize: real, itemSize: Size): LinePass
  {
    if series == [] then LinePass([], true)
    else
      var prev := SeriesStrokes(series[..|series| - 1], table, mode, lineSize, itemSize);
      var s := series[|series| - 1];
      if !prev.ok then prev
      else if s !in table then LinePass(prev.strokes, false)
      else if |table[s]| > 1 then LinePass(prev.strokes + [StrokeFor(s, table[s], mode, lineSize, itemSize)], true)
      else prev
  }

  /** `DrawSeriesLine`: nothing at all when the table is empty or the line
      mode is `NoLine`, else the strokes of the series loop. */
  function SeriesLines(series: seq<Serie>, table: Table, mode: LineMode, lineSize: real, itemSize: Size): LinePass
  {
    if |table| > 0 && mode != NoLine then SeriesStrokes(series, table, mode, lineSize, itemSize)
    else LinePass([], true)
  }

  /** The series that get a line, in series order: those with more than one
      recorded point. */
  function Eligible(series: seq<Serie>, table: Table): (e: seq<Serie>)
    ensures forall s :: s in e ==> s in series && s in table && |table[s]| > 1
  {
    if series == [] then []
    else
      var rest := Eligible(series[1..], table);
      if series[0] in table && |table[series[0]]| > 1 then [series[0]] + rest else rest
  }

  lemma {:induction false} EligibleSnoc(series: seq<Serie>, s: Serie, table: Table)
    ensures Eligible(series + [s], table) ==
      Eligible(series, table) + (if s in table && |table[s]| > 1 then [s] else [])
  {
    if series != [] {
      assert (series + [s])[1..] == series[1..] + [s];
      EligibleSnoc(series[1..], s, table);
    } else {
      assert [s][1..] == [];
    }
  }

  /** A series is eligible exactly when it is listed and has more than one
      recorded point. */
  lemma {:induction false} EligibleMembers(series: seq<Serie>, table: Table, s: Serie)
    ensures s in Eligible(series, table) <==> s in series && s in table && |table[s]| > 1
  {
    if series != [] {
      EligibleMembers(series[1..], table, s);
      assert series == [series[0]] + series[1..];
    }
  }

  /** The series loop goes through every series exactly when each of them is
      in the table. */
  lemma {:induction false} SeriesStrokesOk(series: seq<Serie>, table: Table, mode: LineMode, lineSize: real, itemSize: Size)
    ensures SeriesStrokes(series, table, mode, lineSize, itemSize).ok <==> forall s :: s in series ==> s in table
  {
    if series != [] {
      var init := series[..|series| - 1];
      assert series == init + [series[|series| - 1]];
      SeriesStrokesOk(init, table, mode, lineSize, itemSize);
    }
  }

  /** When every series is in the table, the loop emits one stroke per
      eligible series, in series order, each built from that series' own
      points. */
  lemma {:induction false} SeriesStrokesFollowEligible(series: seq<Serie>, table: Table, mode: LineMode, lineSize: real, itemSize: Size)
    requires forall s :: s in series ==> s in table
    ensures var pass := SeriesStrokes(series, table, mode, lineSize, itemSize);
      var e := Eligible(series, table);
      && pass.ok
      && |pass.strokes| == |e|
      && forall j :: 0 <= j < |e| ==> pass.strokes[j] == StrokeFor(e[j], table[e[j]], mode, lineSize, itemSize)
  {
    SeriesStrokesOk(series, table, mode, lineSize, itemSize);
    if series != [] {
      var init := series[..|series| - 1];
      var s := series[|series| - 1];
      assert series == init + [s];
      SeriesStrokesFollowEligible(init, table, mode, lineSize, itemSize);
      EligibleSnoc(init, s, table);
      var prev := SeriesStrokes(init, table, mode, lineSize, itemSize);
      var pass := SeriesStrokes(series, table, mode, lineSize, itemSize);
      var e := Eligible(series, table);
      var e0 := Eligible(init, table);
      if |table[s]| > 1 {
        var last := StrokeFor(s, table[s], mode, lineSize, itemSize);
        assert pass.strokes == prev.strokes + [last];
        assert e == e0 + [s];
        forall j | 0 <= j < |e|
          ensures pass.strokes[j] == StrokeFor(e[j], table[e[j]], mode, lineSize, itemSize)
        {
          if j < |e0| {
            assert pass.strokes[j] == prev.strokes[j] && e[j] == e0[j];
          } else {
            assert pass.strokes[j] == last && e[j] == s;
          }
        }
      } else {
        assert pass == prev;
        assert e == e0;
      }
    }
  }

  /** The chart. `series` stands for the base class's `Series`, `margin`
      for its `Margin`; the other fields are the chart's own properties and
      its point table. */
  class CombinationChart {
    var series: seq<Serie>
    var margin: real
    var barAreaAlpha: Byte
    var minBarHeight: real
    var lineSize: real
    var lineMode: LineMode
    var pointsPerSerie: Table

    /** A chart with the given series and library-defined defaults; line
        width 3 and spline lines as in the source. */
    constructor (series: seq<Serie>, margin: real, barAreaAlpha: Byte, minBarHeight: real)
      ensures this.series == series && this.margin == margin
      ensures this.barAreaAlpha == barAreaAlpha && this.minBarHeight == minBarHeight
      ensures lineSize == 3.0 && lineMode == Spline && pointsPerSerie == map[]
    {
      this.series := series;
      this.margin := margin;
      this.barAreaAlpha := barAreaAlpha;
      this.minBarHeight := minBarHeight;
      lineSize := 3.0;
      lineMode := Spline;
      pointsPerSerie := map[];
    }

    /** The reset at the start of `DrawContent`: the table is cleared and
        one empty list is added per series, in order; `ok` is false when a
        repeated series made `Add` throw. */
    method DrawContent() returns (ok: bool)
      modifies this`pointsPerSerie
      ensures SeedResult(pointsPerSerie, ok) == Seed(series)
    {
      pointsPerSerie := map[];
      var i := 0;
      while i < |series|
        invariant 0 <= i <= |series|
        invariant Seed(series[..i]) == SeedResult(pointsPerSerie, true)
      {
        var s := series[i];
        assert series[..i + 1][..i] == series[..i];
        if s in pointsPerSerie {
          SeedStopsAtFailure(series, i + 1);
          return false;
        }
        pointsPerSerie := pointsPerSerie[s := []];
        i := i + 1;
      }
      assert series[..i] == series;
      ok := true;
    }

    /** `DrawBar`: a bar series gets its rectangle and the table is not
        touched; any other series gets a dot, whose point is then appended
        to the series' list. `ok` is false when that series has no list
        (the indexer throws after the dot is drawn). */
    method DrawBar(serie: Serie, headerHeight: real, itemSize: Size, barSize: Size,
                   origin: real, barX: real, barY: real, color: Color) returns (drawing: ItemDrawing, ok: bool)
      modifies this`pointsPerSerie
      ensures IsBarSerie(serie) ==>
        && drawing == BarRect(BarDrawingProperties(minBarHeight, margin, headerHeight, itemSize, barSize, origin, barX, barY), color)
        && ok && pointsPerSerie == old(pointsPerSerie)
      ensures !IsBarSerie(serie) ==>
        && drawing == Dot(ItemPoint(itemSize, barSize, barX, barY), color)
        && (ok <==> serie in old(pointsPerSerie))
        && (ok ==> Some(pointsPerSerie) == Record(old(pointsPerSerie), serie, drawing.point))
        && (!ok ==> pointsPerSerie == old(pointsPerSerie))
    {
      if IsBarSerie(serie) {
        var rect := BarDrawingProperties(minBarHeight, margin, headerHeight, itemSize, barSize, origin, barX, barY);
        drawing, ok := BarRect(rect, color), true;
      } else {
        var point := ItemPoint(itemSize, barSize, barX, barY);
        drawing := Dot(point, color);
        if serie in pointsPerSerie {
          pointsPerSerie := pointsPerSerie[serie := pointsPerSerie[serie] + [point]];
          ok := true;
        } else {
          ok := false;
        }
      }
    }

    /** `DrawSeriesLine`: the strokes drawn at the end of the content. */
    method DrawSeriesLine(itemSize: Size) returns (strokes: seq<StrokedPath>, ok: bool)
      ensures LinePass(strokes, ok) == SeriesLines(series, pointsPerSerie, lineMode, lineSize, itemSize)
    {
      strokes, ok := [], true;
      if |pointsPerSerie| > 0 && lineMode != NoLine {
        var i := 0;
        while i < |series|
          invariant 0 <= i <= |series|
          invariant SeriesStrokes(series[..i], pointsPerSerie, lineMode, lineSize, itemSize) == LinePass(strokes, true)
        {
          var s := series[i];
          assert series[..i + 1][..i] == series[..i];
          if s !in pointsPerSerie {
            SeriesStrokesStopAtFailure(series, i + 1, pointsPerSerie, lineMode, lineSize, itemSize);
            return strokes, false;
          }
          var points := pointsPerSerie[s];
          if |points| > 1 {
            var paint := StrokePaint(s, points, lineSize);
            var path := BuildPath(points, lineMode, itemSize);
            strokes := strokes + [StrokedPath(path, paint)];
          }
          i := i + 1;
        }
        assert series[..i] == series;
      }
    }
  }

  /** Once a series is missing, the rest of the series list changes
      nothing. */
  lemma {:induction false} SeriesStrokesStopAtFailure(series: seq<Serie>, k: nat, table: Table, mode: LineMode, lineSize: real, itemSize: Size)
    requires k <= |series|
    requires !SeriesStrokes(series[..k], table, mode, lineSize, itemSize).ok
    ensures SeriesStrokes(series, table, mode, lineSize, itemSize) == SeriesStrokes(series[..k], table, mode, lineSize, itemSize)
    decreases |series| - k
  {
    if k < |series| {
      assert series[..|series| - 1][..k] == series[..k];
      SeriesStrokesStopAtFailure(series[..|series| - 1], k, table, mode, lineSize, itemSize);
    } else {
      assert series[..k] == series;
    }
  }

  /** The line guard: a pass draws no line at all in `NoLine` mode or with an
      empty table; otherwise, when every series has a list (as after a
      completed reset), it draws exactly one stroke per series with more
      than one recorded point, in series order, and none for the others. */
  lemma LineGuard(series: seq<Serie>, table: Table, mode: LineMode, lineSize: real, itemSize: Size)
    ensures mode == NoLine || |table| == 0 ==> SeriesLines(series, table, mode, lineSize, itemSize) == LinePass([], true)
    ensures mode != NoLine && |table| > 0 && (forall s :: s in series ==> s in table) ==>
      var pass := SeriesLines(series, table, mode, lineSize, itemSize);
      var e := Eligible(series, table);
      && pass.ok
      && |pass.strokes| == |e|
      && (forall j :: 0 <= j < |e| ==> pass.strokes[j] == StrokeFor(e[j], table[e[j]], mode, lineSize, itemSize))
      && (forall s :: s in e <==> s in series && |table[s]| > 1)
  {
    if mode != NoLine && |table| > 0 && (forall s :: s in series ==> s in table) {
      SeriesStrokesFollowEligible(series, table, mode, lineSize, itemSize);
      forall s ensures s in Eligible(series, table) <==> s in series && |table[s]| > 1 {
        EligibleMembers(series, table, s);
      }
    }
  }

  /** After a completed reset every series has a list, and recording points
      keeps it that way, so the end-of-pass loop goes through every series. */
  lemma RegisteredPassCompletes(series: seq<Serie>, table: Table, mode: LineMode, lineSize: real, itemSize: Size)
    requires Seed(series).ok
    requires table.Keys == Seed(series).table.Keys
    ensures SeriesLines(series, table, mode, lineSize, itemSize).ok
  {
    SeedRegistersEverySerie(series);
    SeriesStrokesOk(series, table, mode, lineSize, itemSize);
  }
}
