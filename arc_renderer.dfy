/**
 * The arc-ring renderer: from the control's size, the pen width, the start
 * and end angles (radians), the ring thickness and the rounded-cap flag, it
 * derives the centre, the two radii, the rim squares and the salient points
 * at both angles, and then traces the outline of the ring segment as one
 * closed figure of four primitives: end cap, outer arc, start cap, inner arc.
 *
 * `ComputeLayout` and `BuildPath` are the pure form of that computation;
 * the classes `GraphicsPath` and `ArcRenderer` are the step-by-step form in
 * which the control builds the path on each repaint.
 */
module ArcTest {
  import opened Drawing

  datatype Option<T> = None | Some(value: T)

  /** The inputs of one repaint: control size, pen width (None: no pen), angles, thickness, cap style. */
  datatype ArcParams = ArcParams(
    width: int, height: int, strokeWidth: Option<real>,
    start: real, end: real, thickness: real, rounded: bool)

  /** One call on the path: `AddLine(from, to)` or `AddArc(rect, startDeg, sweepDeg)`. */
  datatype Primitive =
    | Line(from: Point, to: Point)
    | Arc(rect: Rect, startDeg: real, sweepDeg: real)

  /** A figure of a path: its primitives in order, and whether it was closed. */
  datatype Figure = Figure(segments: seq<Primitive>, closed: bool)

  /** Everything the renderer derives from its inputs before it builds the path. */
  datatype Layout = Layout(
    radius: real, innerRadius: real, center: Point,
    innerRect: Rect, outerRect: Rect,
    outerStart: Point, innerStart: Point, capStart: Point,
    outerEnd: Point, innerEnd: Point, capEnd: Point,
    endGreaterThanStart: bool, angleStart: real, angleEnd: real)

  /** What a pen takes off the diameter: its width, or nothing when there is no pen. */
  function Inset(strokeWidth: Option<real>): (w: real)
  {
    match strokeWidth
    case None => 0.0
    case Some(w) => w
  }

  /**
   * The outer radius: half of the smaller side of the control, less the pen
   * width when a pen is set. Nothing is clamped: a pen wider than the control
   * gives a negative radius.
   */
  function OuterRadius(width: int, height: int, strokeWidth: Option<real>): (r: real)
    ensures 2.0 * r + Inset(strokeWidth) <= width as real
    ensures 2.0 * r + Inset(strokeWidth) <= height as real
    ensures 2.0 * r + Inset(strokeWidth) == width as real || 2.0 * r + Inset(strokeWidth) == height as real
  {
    var size := (if width <= height then width else height) as real;
    (size - Inset(strokeWidth)) / 2.0
  }

  /** The locals the renderer computes before it starts the path. */
  function ComputeLayout(p: ArcParams, trig: Trig): (l: Layout)
    ensures l.radius == OuterRadius(p.width, p.height, p.strokeWidth)
    ensures l.innerRadius + p.thickness == l.radius
    ensures 2.0 * l.center.x == p.width as real && 2.0 * l.center.y == p.height as real
    ensures CenteredSquare(l.outerRect, l.center, 2.0 * l.radius)
    ensures CenteredSquare(l.innerRect, l.center, 2.0 * l.innerRadius)
    ensures l.outerStart == OnRay(l.center, trig.cos(p.start), trig.sin(p.start), l.radius)
    ensures l.innerStart == OnRay(l.center, trig.cos(p.start), trig.sin(p.start), l.innerRadius)
    ensures l.outerEnd == OnRay(l.center, trig.cos(p.end), trig.sin(p.end), l.radius)
    ensures l.innerEnd == OnRay(l.center, trig.cos(p.end), trig.sin(p.end), l.innerRadius)
    ensures l.capStart == Midpoint(l.outerStart, l.innerStart)
    ensures l.capEnd == Midpoint(l.outerEnd, l.innerEnd)
    ensures l.angleStart == Degrees(p.start) && l.angleEnd == Degrees(p.end)
    ensures l.endGreaterThanStart <==> l.angleEnd > l.angleStart
  {
    var radius := OuterRadius(p.width, p.height, p.strokeWidth);
    var innerRadius := radius - p.thickness;
    var center := Point(p.width as real / 2.0, p.height as real / 2.0);
    var sinStart, cosStart := trig.sin(p.start), trig.cos(p.start);
    var sinEnd, cosEnd := trig.sin(p.end), trig.cos(p.end);
    var innerRect := SquareAround(center, innerRadius);
    var outerRect := SquareAround(center, radius);
    var outerStart := OnRay(center, cosStart, sinStart, radius);
    var innerStart := OnRay(center, cosStart, sinStart, innerRadius);
    var outerEnd := OnRay(center, cosEnd, sinEnd, radius);
    var innerEnd := OnRay(center, cosEnd, sinEnd, innerRadius);
    DegreesRoundTrip(p.start, p.end);
    Layout(radius, innerRadius, center, innerRect, outerRect,
           outerStart, innerStart, Midpoint(outerStart, innerStart),
           outerEnd, innerEnd, Midpoint(outerEnd, innerEnd),
           p.end > p.start, Degrees(p.start), Degrees(p.end))
  }

  /** The sweep of the end cap; the start cap sweeps the other way. */
  function EndCapSweep(endGreaterThanStart: bool): (sweep: real)
  {
    if endGreaterThanStart then 180.0 else -180.0
  }

  /** The end cap: a half circle of diameter `thickness` about the end cap centre, or a radial line. */
  function EndCap(p: ArcParams, l: Layout): (cap: Primitive)
  {
    if p.rounded then
      Arc(SquareAround(l.capEnd, p.thickness / 2.0), Degrees(p.end), EndCapSweep(l.endGreaterThanStart))
    else
      Line(l.innerEnd, l.outerEnd)
  }

  /** The start cap, the mirror of the end cap. */
  function StartCap(p: ArcParams, l: Layout): (cap: Primitive)
  {
    if p.rounded then
      Arc(SquareAround(l.capStart, p.thickness / 2.0), Degrees(p.start), -EndCapSweep(l.endGreaterThanStart))
    else
      Line(l.outerStart, l.innerStart)
  }

  /**
   * The outline of the ring segment: end cap, outer arc from the end angle
   * back to the start angle, start cap, inner arc from the start angle to
   * the end angle, closed.
   */
  function BuildPath(p: ArcParams, trig: Trig): (f: Figure)
    ensures |f.segments| == 4 && f.closed
    ensures var l := ComputeLayout(p, trig);
      && f.segments[1].Arc? && f.segments[1].rect == l.outerRect
      && f.segments[3].Arc? && f.segments[3].rect == l.innerRect
    ensures f.segments[1].startDeg == Degrees(p.end) && f.segments[3].startDeg == Degrees(p.start)
    ensures f.segments[1].startDeg + f.segments[1].sweepDeg == f.segments[3].startDeg
    ensures f.segments[3].startDeg + f.segments[3].sweepDeg == f.segments[1].startDeg
    ensures f.segments[1].sweepDeg == -f.segments[3].sweepDeg
    ensures p.rounded <==> f.segments[0].Arc?
    ensures p.rounded <==> f.segments[2].Arc?
    ensures p.rounded ==> var l := ComputeLayout(p, trig);
      && CenteredSquare(f.segments[0].rect, l.capEnd, p.thickness)
      && CenteredSquare(f.segments[2].rect, l.capStart, p.thickness)
      && f.segments[0].startDeg == Degrees(p.end)
      && f.segments[2].startDeg == Degrees(p.start)
      && f.segments[0].sweepDeg == (if p.end > p.start then 180.0 else -180.0)
      && f.segments[2].sweepDeg == -f.segments[0].sweepDeg
    ensures !p.rounded ==> var l := ComputeLayout(p, trig);
      && f.segments[0] == Line(l.innerEnd, l.outerEnd)
      && f.segments[2] == Line(l.outerStart, l.innerStart)
  {
    var l := ComputeLayout(p, trig);
    Figure([EndCap(p, l),
            Arc(l.outerRect, l.angleEnd, l.angleStart - l.angleEnd),
            StartCap(p, l),
            Arc(l.innerRect, l.angleStart, l.angleEnd - l.angleStart)],
           true)
  }

  /** One drawing pass over the finished path. */
  datatype Pass = DrawPath(penWidth: real) | FillPath

  /** The passes of a repaint: the outline with the pen if there is one, then the fill if there is a brush. */
  function Passes(stroke: Option<real>, fill: bool): (ps: seq<Pass>)
    ensures |ps| == (if stroke.Some? then 1 else 0) + (if fill then 1 else 0)
    ensures stroke.Some? ==> ps[0] == DrawPath(stroke.value)
    ensures fill ==> ps[|ps| - 1] == FillPath
    ensures FillPath in ps <==> fill
  {
    (if stroke.Some? then [DrawPath(stroke.value)] else []) + (if fill then [FillPath] else [])
  }

  /** The GraphicsPath the renderer builds: the primitives of its one figure, and whether it was closed. */
  class GraphicsPath {
    var segments: seq<Primitive>
    var closed: bool

    constructor ()
      ensures segments == [] && !closed
    {
      segments := [];
      closed := false;
    }

    method AddLine(from: Point, to: Point)
      modifies this
      ensures segments == old(segments) + [Line(from, to)]
      ensures closed == old(closed)
    {
      segments := segments + [Line(from, to)];
    }

    method AddArc(rect: Rect, startDeg: real, sweepDeg: real)
      modifies this
      ensures segments == old(segments) + [Arc(rect, startDeg, sweepDeg)]
      ensures closed == old(closed)
    {
      segments := segments + [Arc(rect, startDeg, sweepDeg)];
    }

    method CloseFigure()
      modifies this
      ensures segments == old(segments)
      ensures closed
    {
      closed := true;
    }

    function ToFigure(): (f: Figure)
      reads this
    {
      Figure(segments, closed)
    }
  }

  /** The control: its size and the settings its properties store. */
  class ArcRenderer {
    var width: int
    var height: int
    var start: real
    var end: real
    var circleThickness: real
    var enabledRoundedEndPoint: bool
    /** The width of the outline pen, None when no pen is set. */
    var stroke: Option<real>
    /** Whether a fill brush is set. */
    var fill: bool

    /** A control of the given size with the initial settings: a 2-wide pen and a fill brush. */
    constructor (width: int, height: int)
      ensures this.width == width && this.height == height
      ensures start == 0.0 && end == 0.0 && circleThickness == 0.0 && !enabledRoundedEndPoint
      ensures stroke == Some(2.0) && fill
    {
      this.width, this.height := width, height;
      start, end, circleThickness := 0.0, 0.0, 0.0;
      enabledRoundedEndPoint := false;
      stroke, fill := Some(2.0), true;
    }

    function Params(): (p: ArcParams)
      reads this
    {
      ArcParams(width, height, stroke, start, end, circleThickness, enabledRoundedEndPoint)
    }

    /**
     * A repaint: computes the layout, builds the outline one call at a time,
     * closes it, and lists the passes that draw it.
     */
    method OnPaint(trig: Trig) returns (path: GraphicsPath, passes: seq<Pass>)
      ensures fresh(path)
      ensures path.ToFigure() == BuildPath(Params(), trig)
      ensures passes == Passes(stroke, fill)
    {
      var l := ComputeLayout(Params(), trig);
      ghost var s := BuildPath(Params(), trig).segments;
      path := new GraphicsPath();
      if enabledRoundedEndPoint {
        path.AddArc(SquareAround(l.capEnd, circleThickness / 2.0), Degrees(end),
                    if l.endGreaterThanStart then 180.0 else -180.0);
      } else {
        path.AddLine(l.innerEnd, l.outerEnd);
      }
      assert path.segments == s[..1];
      path.AddArc(l.outerRect, l.angleEnd, l.angleStart - l.angleEnd);
      assert path.segments == s[..2];
      if enabledRoundedEndPoint {
        path.AddArc(SquareAround(l.capStart, circleThickness / 2.0), Degrees(start),
                    if l.endGreaterThanStart then -180.0 else 180.0);
      } else {
        path.AddLine(l.outerStart, l.innerStart);
      }
      assert path.segments == s[..3];
      path.AddArc(l.innerRect, l.angleStart, l.angleEnd - l.angleStart);
      assert path.segments == s;
      path.CloseFigure();
      passes := Passes(stroke, fill);
    }
  }
}
