/** Concrete draw-pass situations, worked out on the model. */
module Scenarios {
  import opened Wrappers
  import opened Drawing
  import opened Series
  import opened BarGeometry
  import opened LinePath
  import opened Accumulator
  import opened CombinationCharts

  /** A bar from origin 100 up to y 40 with a minimum height of 4 is not
      clamped: it is 60 high and starts at y 40. */
  lemma TallBarIsNotClamped(margin: real, headerHeight: real, itemSize: Size, barSize: Size, barX: real)
    ensures var r := BarDrawingProperties(4.0, margin, headerHeight, itemSize, barSize, 100.0, barX, 40.0);
      r.height == 60.0 && r.y == 40.0
  {
  }

  /** Resetting with series A and B and recording p1 for A leaves A with
      `[p1]` and B with `[]`; recording for a third series C fails. */
  lemma ResetThenRecord(a: Serie, b: Serie, c: Serie, p1: Point, p: Point)
    requires a != b && c != a && c != b
    ensures Seed([a, b]).ok
    ensures Record(Seed([a, b]).table, a, p1) == Some(map[a := [p1], b := []])
    ensures Record(Seed([a, b]).table, c, p).None?
  {
    assert [a, b][..1] == [a];
    assert [a][..0] == [];
    assert Seed([a]) == SeedResult(map[a := []], true);
    assert Seed([a, b]) == SeedResult(map[a := [], b := []], true);
    assert map[a := [], b := []][a := [p1]] == map[a := [p1], b := []];
  }

  /** Three points `(0,10), (10,0), (20,10)` with item width 10 in spline
      mode give two cubics whose control points sit 8 to the right of each
      start and 8 to the left of each end. */
  lemma ThreePointSpline(points: seq<Point>, itemSize: Size)
    requires points == [Point(0.0, 10.0), Point(10.0, 0.0), Point(20.0, 10.0)]
    requires itemSize.width == 10.0
    ensures PathFor(points, Spline, itemSize) ==
      [MoveTo(Point(0.0, 10.0)),
       CubicTo(Point(8.0, 10.0), Point(2.0, 0.0), Point(10.0, 0.0)),
       CubicTo(Point(18.0, 0.0), Point(12.0, 10.0), Point(20.0, 10.0))]
  {
    SplinePathShape(points, itemSize);
    var path := PathFor(points, Spline, itemSize);
    assert path[1] == CubicTo(Point(8.0, 10.0), Point(2.0, 0.0), Point(10.0, 0.0)) by {
      assert path[0 + 1] == CubicTo(Point(points[0].x + 0.8 * itemSize.width, points[0].y),
                                    Point(points[0 + 1].x - 0.8 * itemSize.width, points[0 + 1].y),
                                    points[0 + 1]);
    }
    assert path[2] == CubicTo(Point(18.0, 0.0), Point(12.0, 10.0), Point(20.0, 10.0)) by {
      assert path[1 + 1] == CubicTo(Point(points[1].x + 0.8 * itemSize.width, points[1].y),
                                    Point(points[1 + 1].x - 0.8 * itemSize.width, points[1 + 1].y),
                                    points[1 + 1]);
    }
  }

  /** The same points in straight mode give three lines, the first back to
      the start. */
  lemma ThreePointStraight()
    ensures PathFor([Point(0.0, 10.0), Point(10.0, 0.0), Point(20.0, 10.0)], Straight, Size(10.0, 50.0)) ==
      [MoveTo(Point(0.0, 10.0)), LineTo(Point(0.0, 10.0)),
       LineTo(Point(10.0, 0.0)), LineTo(Point(20.0, 10.0))]
  {
    var points := [Point(0.0, 10.0), Point(10.0, 0.0), Point(20.0, 10.0)];
    var itemSize := Size(10.0, 50.0);
    assert Commands(points, Straight, itemSize, 3) ==
      Commands(points, Straight, itemSize, 2) + Step(points, Straight, itemSize, 2);
    assert Commands(points, Straight, itemSize, 2) ==
      Commands(points, Straight, itemSize, 1) + Step(points, Straight, itemSize, 1);
    assert Commands(points, Straight, itemSize, 1) == Step(points, Straight, itemSize, 0);
  }

  /** Entries coloured red, green and blue, with no series colour, give a
      clamped gradient of those three colours, opaque, in entry order. */
  lemma ThreeEntryGradient(points: seq<Point>, v1: real, v2: real, v3: real)
    requires |points| > 0
    ensures var red, green, blue := Color(255, 0, 0, 255), Color(0, 255, 0, 255), Color(0, 0, 255, 255);
      var g := XGradient(points, [Entry(v1, red), Entry(v2, green), Entry(v3, blue)], None, 255);
      g.colors == [red, green, blue] && g.tileMode == Clamp && g.positions == None
  {
  }

  /** A point series with a single recorded point gets no line. */
  lemma SinglePointGetsNoLine(s: Serie, p: Point, mode: LineMode, lineSize: real, itemSize: Size)
    ensures SeriesLines([s], map[s := [p]], mode, lineSize, itemSize) == LinePass([], true)
  {
    var table := map[s := [p]];
    assert [s][..0] == [];
    assert SeriesStrokes([], table, mode, lineSize, itemSize) == LinePass([], true);
    assert |table[s]| == 1;
  }
}
