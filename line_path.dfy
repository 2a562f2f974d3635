/** The path `DrawSeriesLine` builds for one series from its recorded points
    (straight segments or per-segment cubic curves, `CalculateCubicInfo`),
    the gradient `CreateXGradient` describes, and the stroke paint. */
module LinePath {
  import opened Wrappers
  import opened Drawing
  import opened Series

  /** `LineMode`; `NoLine` is the source's `LineMode.None`. */
  datatype LineMode = NoLine | Straight | Spline

  /** The three points `CalculateCubicInfo` returns. */
  datatype CubicInfo = CubicInfo(control: Point, nextPoint: Point, nextControl: Point)

  /** The horizontal control-point offset, as a fraction of the item width. */
  const CONTROL_OFFSET_FACTOR: real := 0.8

  /** `CalculateCubicInfo`: the curve from `points[i]` to `points[i + 1]`
      leaves and enters horizontally, its control points lying
      `0.8 * itemSize.width` to the right of its start and to the left of its
      end. */
  function CalculateCubicInfo(points: seq<Point>, i: nat, itemSize: Size): (r: CubicInfo)
    requires i + 1 < |points|
    ensures r.nextPoint == points[i + 1]
    ensures r.control.y == points[i].y
    ensures r.control.x - points[i].x == 0.8 * itemSize.width
    ensures r.nextControl.y == points[i + 1].y
    ensures points[i + 1].x - r.nextControl.x == 0.8 * itemSize.width
  {
    var controlOffset := Point(itemSize.width * CONTROL_OFFSET_FACTOR, 0.0);
    CubicInfo(Plus(points[i], controlOffset), points[i + 1], Minus(points[i + 1], controlOffset))
  }

  /** The bound of the `for` loop of `DrawSeriesLine`: one iteration per
      segment in spline mode, one per point otherwise. */
  function LoopBound(n: nat, mode: LineMode): nat {
    if mode == Spline && n > 0 then n - 1 else n
  }

  /** What iteration `i` of that loop appends to the path. */
  function Step(points: seq<Point>, mode: LineMode, itemSize: Size, i: nat): seq<PathCommand>
    requires i < LoopBound(|points|, mode)
  {
    match mode
    case Spline =>
      var cubic := CalculateCubicInfo(points, i, itemSize);
      [CubicTo(cubic.control, cubic.nextControl, cubic.nextPoint)]
    case Straight => [LineTo(points[i])]
    case NoLine => []
  }

  /** The commands appended by the first `k` iterations. */
  function Commands(points: seq<Point>, mode: LineMode, itemSize: Size, k: nat): seq<PathCommand>
    requires k <= LoopBound(|points|, mode)
  {
    if k == 0 then [] else Commands(points, mode, itemSize, k - 1) + Step(points, mode, itemSize, k - 1)
  }

  /** The whole path: a move to the first point, then every iteration's
      commands. */
  function PathFor(points: seq<Point>, mode: LineMode, itemSize: Size): seq<PathCommand>
    requires |points| > 0
  {
    [MoveTo(points[0])] + Commands(points, mode, itemSize, LoopBound(|points|, mode))
  }

  /** The path construction of `DrawSeriesLine`, command by command. */
  method BuildPath(points: seq<Point>, mode: LineMode, itemSize: Size) returns (path: seq<PathCommand>)
    requires |points| > 0
    ensures path == PathFor(points, mode, itemSize)
  {
    path := [MoveTo(points[0])];
    var last := LoopBound(|points|, mode);
    for i := 0 to last
      invariant path == [MoveTo(points[0])] + Commands(points, mode, itemSize, i)
    {
      if mode == Spline {
        var cubicInfo := CalculateCubicInfo(points, i, itemSize);
        path := path + [CubicTo(cubicInfo.control, cubicInfo.nextControl, cubicInfo.nextPoint)];
      } else if mode == Straight {
        path := path + [LineTo(points[i])];
      }
    }
  }

  lemma {:induction false} SplineCommandsAt(points: seq<Point>, itemSize: Size, k: nat)
    requires k < |points|
    ensures |Commands(points, Spline, itemSize, k)| == k
    ensures forall i :: 0 <= i < k ==>
      Commands(points, Spline, itemSize, k)[i] ==
        CubicTo(Point(points[i].x + 0.8 * itemSize.width, points[i].y),
                Point(points[i + 1].x - 0.8 * itemSize.width, points[i + 1].y),
                points[i + 1])
  {
    if k > 0 {
      SplineCommandsAt(points, itemSize, k - 1);
    }
  }

  /** Spline mode: a move to the first point, then exactly one cubic per
      pair of consecutive points, each ending at the later point, with the
      fixed horizontal control offsets. */
  lemma SplinePathShape(points: seq<Point>, itemSize: Size)
    requires |points| > 0
    ensures var path := PathFor(points, Spline, itemSize);
      && |path| == |points|
      && path[0] == MoveTo(points[0])
      && forall i :: 0 <= i < |points| - 1 ==>
           path[i + 1] == CubicTo(Point(points[i].x + 0.8 * itemSize.width, points[i].y),
                                  Point(points[i + 1].x - 0.8 * itemSize.width, points[i + 1].y),
                                  points[i + 1])
  {
    SplineCommandsAt(points, itemSize, |points| - 1);
  }

  lemma {:induction false} StraightCommandsAt(points: seq<Point>, itemSize: Size, k: nat)
    requires k <= |points|
    ensures Commands(points, Straight, itemSize, k) == seq(k, i requires 0 <= i < k => LineTo(points[i]))
  {
    if k > 0 {
      StraightCommandsAt(points, itemSize, k - 1);
    }
  }

  /** Straight mode: a move to the first point, then one line to every
      point in order, so the first line is the degenerate one back to
      `points[0]`. */
  lemma StraightPathShape(points: seq<Point>, itemSize: Size)
    requires |points| > 0
    ensures var path := PathFor(points, Straight, itemSize);
      && |path| == |points| + 1
      && path[0] == MoveTo(points[0])
      && path[1] == LineTo(points[0])
      && forall i :: 0 <= i < |points| ==> path[i + 1] == LineTo(points[i])
  {
    StraightCommandsAt(points, itemSize, |points|);
  }

  lemma {:induction false} NoLineCommandsEmpty(points: seq<Point>, itemSize: Size, k: nat)
    requires k <= |points|
    ensures Commands(points, NoLine, itemSize, k) == []
  {
    if k > 0 {
      NoLineCommandsEmpty(points, itemSize, k - 1);
    }
  }

  /** With no line mode the loop runs but appends nothing. */
  lemma NoLinePathIsMoveOnly(points: seq<Point>, itemSize: Size)
    requires |points| > 0
    ensures PathFor(points, NoLine, itemSize) == [MoveTo(points[0])]
  {
    NoLineCommandsEmpty(points, itemSize, |points|);
  }

  /** In both drawing modes the path starts at the first recorded point,
      visits every recorded point as the target of a command, in order, and
      ends at the last one. */
  lemma PathVisitsPointsInOrder(points: seq<Point>, mode: LineMode, itemSize: Size)
    requires |points| > 0 && mode != NoLine
    ensures var path := PathFor(points, mode, itemSize);
      var shift := if mode == Straight then 1 else 0;
      && |path| == |points| + shift
      && path[0] == MoveTo(points[0])
      && (forall i :: 0 <= i < |points| ==> path[i + shift].target == points[i])
      && path[|path| - 1].target == points[|points| - 1]
  {
    if mode == Spline {
      SplinePathShape(points, itemSize);
      var path := PathFor(points, Spline, itemSize);
      forall i | 0 < i < |points| ensures path[i].target == points[i] {
        var j := i - 1;
        assert path[j + 1] == CubicTo(Point(points[j].x + 0.8 * itemSize.width, points[j].y),
                                      Point(points[j + 1].x - 0.8 * itemSize.width, points[j + 1].y),
                                      points[j + 1]);
      }
    } else {
      StraightPathShape(points, itemSize);
    }
  }

  /** The gradient colour of one entry: the series colour when there is one,
      else the entry's own, with the given alpha. */
  function EntryColor(e: Entry, serieColor: Option<Color>, alpha: Byte): Color {
    WithAlpha(serieColor.GetOr(e.color), alpha)
  }

  /** `CreateXGradient`: a horizontal gradient from the first point's x to the
      last point's x, one colour per entry in entry order, evenly spread, and
      clamped beyond its ends. */
  function XGradient(points: seq<Point>, entries: seq<Entry>, serieColor: Option<Color>, alpha: Byte): (g: Gradient)
    requires |points| > 0
    ensures g.start == Point(points[0].x, 0.0)
    ensures g.end == Point(points[|points| - 1].x, 0.0)
    ensures |g.colors| == |entries|
    ensures forall i :: 0 <= i < |entries| ==> g.colors[i].alpha == alpha
    ensures serieColor.None? ==> forall i :: 0 <= i < |entries| ==>
      g.colors[i] == entries[i].color.(alpha := alpha)
    ensures serieColor.Some? ==> forall i :: 0 <= i < |entries| ==>
      g.colors[i] == serieColor.value.(alpha := alpha)
    ensures g.positions == None && g.tileMode == Clamp
  {
    LinearGradient(
      Point(points[0].x, 0.0),
      Point(points[|points| - 1].x, 0.0),
      seq(|entries|, i requires 0 <= i < |entries| => EntryColor(entries[i], serieColor, alpha)),
      None,
      Clamp)
  }

  lemma {:induction false} XOrdered(points: seq<Point>, i: nat, j: nat)
    requires forall k :: 0 <= k < |points| - 1 ==> points[k].x <= points[k + 1].x
    requires i <= j < |points|
    ensures points[i].x <= points[j].x
  {
    if i < j {
      XOrdered(points, i, j - 1);
      assert points[j - 1].x <= points[(j - 1) + 1].x;
    }
  }

  /** When the points advance left to right, as the items of a series are
      laid out, the gradient spans exactly from the leftmost to the
      rightmost point. */
  lemma GradientSpansPoints(points: seq<Point>, entries: seq<Entry>, serieColor: Option<Color>, alpha: Byte)
    requires |points| > 0
    requires forall k :: 0 <= k < |points| - 1 ==> points[k].x <= points[k + 1].x
    ensures var g := XGradient(points, entries, serieColor, alpha);
      forall i :: 0 <= i < |points| ==> g.start.x <= points[i].x <= g.end.x
  {
    forall i | 0 <= i < |points|
      ensures points[0].x <= points[i].x <= points[|points| - 1].x
    {
      XOrdered(points, 0, i);
      XOrdered(points, i, |points| - 1);
    }
  }

  /** The stroke paint of a series: its own colour and no shader when it has
      one, else white overlaid by the gradient of its entries' colours at
      full opacity. */
  function StrokePaint(s: Serie, points: seq<Point>, lineSize: real): (p: Paint)
    requires |points| > 0
    ensures p.style == StrokeStyle && p.strokeWidth == lineSize && p.antialias
    ensures s.color.Some? ==> p.color == s.color.value && p.shader.None?
    ensures s.color.None? ==> p.color == WHITE && p.shader == Some(XGradient(points, s.entries, None, 255))
  {
    var paint := Paint(StrokeStyle, s.color.GetOr(WHITE), lineSize, true, None);
    if s.color.None? then paint.(shader := Some(XGradient(points, s.entries, s.color, 255))) else paint
  }
}
