/** The values this component hands to the drawing surface: points, sizes,
    rectangles, colours, path commands, gradients and paints. The surface
    itself (SkiaSharp's canvas, paint and shader objects) is not modelled;
    only the data passed to it is. Coordinates are `real`: float rounding
    is not modelled. */
module Drawing {
  import opened Wrappers

  /** An 8-bit colour channel or alpha value (`byte`). */
  type Byte = x: int | 0 <= x < 256

  datatype Point = Point(x: real, y: real)

  datatype Size = Size(width: real, height: real)

  /** A rectangle given by its top-left corner and its size, as built by
      `SKRect.Create(x, y, width, height)`. */
  datatype Rect = Rect(x: real, y: real, width: real, height: real)

  datatype Color = Color(red: Byte, green: Byte, blue: Byte, alpha: Byte)

  /** `SKColors.White`. */
  const WHITE: Color := Color(255, 255, 255, 255)

  /** `SKColor.WithAlpha`: the same colour with its alpha replaced. */
  function WithAlpha(c: Color, alpha: Byte): Color {
    c.(alpha := alpha)
  }

  /** `SKPoint + SKPoint` and `SKPoint - SKPoint`, componentwise. */
  function Plus(p: Point, q: Point): Point {
    Point(p.x + q.x, p.y + q.y)
  }

  function Minus(p: Point, q: Point): Point {
    Point(p.x - q.x, p.y - q.y)
  }

  function Min(a: real, b: real): real {
    if a <= b then a else b
  }

  function Max(a: real, b: real): real {
    if a >= b then a else b
  }

  function Abs(a: real): real {
    if a < 0.0 then -a else a
  }

  /** The commands an `SKPath` is built from. `CubicTo(c1, c2, target)` is a
      cubic Bezier segment from the current point to `target` with control
      points `c1` and `c2`. */
  datatype PathCommand =
    | MoveTo(target: Point)
    | LineTo(target: Point)
    | CubicTo(control1: Point, control2: Point, target: Point)

  datatype TileMode = Clamp | Repeat | Mirror | Decal

  /** The arguments of `SKShader.CreateLinearGradient`: the gradient runs
      from `start` to `end`; `positions == None` means the colours are spread
      evenly (the source passes `null`). */
  datatype Gradient = LinearGradient(
    start: Point,
    end: Point,
    colors: seq<Color>,
    positions: Option<seq<real>>,
    tileMode: TileMode)

  datatype PaintStyle = FillStyle | StrokeStyle | StrokeAndFillStyle

  /** The fields of an `SKPaint` the component sets. */
  datatype Paint = Paint(
    style: PaintStyle,
    color: Color,
    strokeWidth: real,
    antialias: bool,
    shader: Option<Gradient>)

  /** One `canvas.DrawPath(path, paint)` call. */
  datatype StrokedPath = StrokedPath(path: seq<PathCommand>, paint: Paint)
}
