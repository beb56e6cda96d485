/**
 * What the outline built by the arc renderer promises: where the salient
 * points lie, how the four primitives join up, which way the caps bulge,
 * what the cap flag and a swap of the angles change, and the degenerate
 * cases (equal angles, zero thickness, thickness above the radius).
 *
 * Where a primitive begins and ends, and the joining lines GDI+ adds, are
 * those of the module Figures.
 */
module ArcProperties {
  import opened Drawing
  import opened ArcTest
  import opened Figures

  /** Half a turn (MathF.PI) either way reverses the direction at `a`. */
  predicate HalfTurn(trig: Trig, a: real)
  {
    && trig.cos(a + PI) == -trig.cos(a) && trig.sin(a + PI) == -trig.sin(a)
    && trig.cos(a - PI) == -trig.cos(a) && trig.sin(a - PI) == -trig.sin(a)
  }

  /** Two points on one ray with a unit direction lie on the circles of their distances about its origin. */
  lemma RayPointsOnCircles(c: Point, cosA: real, sinA: real, r: real, ir: real, outer: Point, inner: Point)
    requires cosA * cosA + sinA * sinA == 1.0
    requires outer == OnRay(c, cosA, sinA, r) && inner == OnRay(c, cosA, sinA, ir)
    ensures OnCircle(outer, c, r) && OnCircle(inner, c, ir)
  {
    OnRayDistance(c, cosA, sinA, r);
    OnRayDistance(c, cosA, sinA, ir);
  }

  /** The circle of diameter `t` about the midpoint of two ray points `t` apart passes through both. */
  lemma CapCircleThroughRayPoints(c: Point, cosA: real, sinA: real, r: real, ir: real, t: real,
                                  outer: Point, inner: Point, cap: Point)
    requires cosA * cosA + sinA * sinA == 1.0
    requires ir + t == r
    requires outer == OnRay(c, cosA, sinA, r) && inner == OnRay(c, cosA, sinA, ir)
    requires cap == Midpoint(outer, inner)
    ensures OnCircle(outer, cap, t / 2.0) && OnCircle(inner, cap, t / 2.0)
  {
    var mid, half := (r + ir) / 2.0, t / 2.0;
    MidpointOnRay(c, cosA, sinA, r, ir);
    assert mid + half == r && mid - half == ir;
    CapPointsFromCapCentre(c, cosA, sinA, mid, half);
  }

  /** The points `half` either side of the cap centre along a unit ray lie on the circle of radius `half` about it. */
  lemma CapPointsFromCapCentre(c: Point, cosA: real, sinA: real, mid: real, half: real)
    requires cosA * cosA + sinA * sinA == 1.0
    ensures OnCircle(OnRay(c, cosA, sinA, mid + half), OnRay(c, cosA, sinA, mid), half)
    ensures OnCircle(OnRay(c, cosA, sinA, mid - half), OnRay(c, cosA, sinA, mid), half)
  {
    var capCentre := OnRay(c, cosA, sinA, mid);
    OnRayCompose(c, cosA, sinA, mid, half);
    OnRayCompose(c, cosA, sinA, mid, -half);
    OnRayDistance(capCentre, cosA, sinA, half);
    OnRayDistance(capCentre, cosA, sinA, -half);
  }

  /**
   * The rim points of a layout lie on its circles, and its cap circles pass
   * through them, when each ray is a unit one.
   */
  lemma LayoutPointsOnCircles(l: Layout, t: real, cs: real, ss: real, ce: real, se: real)
    requires cs * cs + ss * ss == 1.0 && ce * ce + se * se == 1.0
    requires l.innerRadius + t == l.radius
    requires l.outerStart == OnRay(l.center, cs, ss, l.radius) && l.innerStart == OnRay(l.center, cs, ss, l.innerRadius)
    requires l.outerEnd == OnRay(l.center, ce, se, l.radius) && l.innerEnd == OnRay(l.center, ce, se, l.innerRadius)
    requires l.capStart == Midpoint(l.outerStart, l.innerStart) && l.capEnd == Midpoint(l.outerEnd, l.innerEnd)
    ensures OnCircle(l.outerStart, l.center, l.radius) && OnCircle(l.innerStart, l.center, l.innerRadius)
    ensures OnCircle(l.outerEnd, l.center, l.radius) && OnCircle(l.innerEnd, l.center, l.innerRadius)
    ensures OnCircle(l.outerStart, l.capStart, t / 2.0) && OnCircle(l.innerStart, l.capStart, t / 2.0)
    ensures OnCircle(l.outerEnd, l.capEnd, t / 2.0) && OnCircle(l.innerEnd, l.capEnd, t / 2.0)
  {
    RayPointsOnCircles(l.center, cs, ss, l.radius, l.innerRadius, l.outerStart, l.innerStart);
    RayPointsOnCircles(l.center, ce, se, l.radius, l.innerRadius, l.outerEnd, l.innerEnd);
    CapCircleThroughRayPoints(l.center, cs, ss, l.radius, l.innerRadius, t, l.outerStart, l.innerStart, l.capStart);
    CapCircleThroughRayPoints(l.center, ce, se, l.radius, l.innerRadius, t, l.outerEnd, l.innerEnd, l.capEnd);
  }

  /**
   * The outer and inner points at each angle lie on the outer and inner
   * circles, when the sine and cosine of that angle make a unit vector.
   */
  lemma RimPointsOnCircles(p: ArcParams, trig: Trig)
    requires trig.cos(p.start) * trig.cos(p.start) + trig.sin(p.start) * trig.sin(p.start) == 1.0
    requires trig.cos(p.end) * trig.cos(p.end) + trig.sin(p.end) * trig.sin(p.end) == 1.0
    ensures var l := ComputeLayout(p, trig);
      && OnCircle(l.outerStart, l.center, l.radius) && OnCircle(l.innerStart, l.center, l.innerRadius)
      && OnCircle(l.outerEnd, l.center, l.radius) && OnCircle(l.innerEnd, l.center, l.innerRadius)
  {
    LayoutPointsOnCircles(ComputeLayout(p, trig), p.thickness,
                          trig.cos(p.start), trig.sin(p.start), trig.cos(p.end), trig.sin(p.end));
  }

  /**
   * The circle a rounded cap is drawn on, of diameter `CircleThickness`
   * about the cap centre, passes through the outer and the inner point at
   * its angle.
   */
  lemma CapCircleThroughRimPoints(p: ArcParams, trig: Trig)
    requires trig.cos(p.start) * trig.cos(p.start) + trig.sin(p.start) * trig.sin(p.start) == 1.0
    requires trig.cos(p.end) * trig.cos(p.end) + trig.sin(p.end) * trig.sin(p.end) == 1.0
    ensures var l, half := ComputeLayout(p, trig), p.thickness / 2.0;
      && OnCircle(l.outerStart, l.capStart, half) && OnCircle(l.innerStart, l.capStart, half)
      && OnCircle(l.outerEnd, l.capEnd, half) && OnCircle(l.innerEnd, l.capEnd, half)
  {
    LayoutPointsOnCircles(ComputeLayout(p, trig), p.thickness,
                          trig.cos(p.start), trig.sin(p.start), trig.cos(p.end), trig.sin(p.end));
  }

  /** Where the rims' arcs begin and end: at the outer and inner points of the two angles. */
  lemma RimArcEnds(p: ArcParams, trig: Trig)
    ensures var f, l := BuildPath(p, trig), ComputeLayout(p, trig);
      && StartOf(trig, f.segments[1]) == l.outerEnd && EndOf(trig, f.segments[1]) == l.outerStart
      && StartOf(trig, f.segments[3]) == l.innerStart && EndOf(trig, f.segments[3]) == l.innerEnd
  {
    var f, l := BuildPath(p, trig), ComputeLayout(p, trig);
    ArcPointOnCircle(trig, l.center, l.radius, p.start);
    ArcPointOnCircle(trig, l.center, l.radius, p.end);
    ArcPointOnCircle(trig, l.center, l.innerRadius, p.start);
    ArcPointOnCircle(trig, l.center, l.innerRadius, p.end);
  }

  /**
   * With flat caps the outline is one unbroken loop: every primitive begins
   * where the previous one ends, and the last ends where the first begins,
   * whatever the trigonometry.
   */
  lemma FlatOutlineIsClosedChain(p: ArcParams, trig: Trig)
    requires !p.rounded
    ensures var s := BuildPath(p, trig).segments;
      && Joined(trig, s[0], s[1]) && Joined(trig, s[1], s[2])
      && Joined(trig, s[2], s[3]) && Joined(trig, s[3], s[0])
  {
    RimArcEnds(p, trig);
  }

  /** A rounded cap runs from the outer point at its angle to the inner point at that angle. */
  lemma RoundedCapEnds(trig: Trig, c: Point, r: real, ir: real, t: real, a: real, sweep: real,
                       outer: Point, inner: Point, cap: Point)
    requires HalfTurn(trig, a)
    requires sweep == 180.0 || sweep == -180.0
    requires ir + t == r
    requires outer == OnRay(c, trig.cos(a), trig.sin(a), r) && inner == OnRay(c, trig.cos(a), trig.sin(a), ir)
    requires cap == Midpoint(outer, inner)
    ensures StartOf(trig, Arc(SquareAround(cap, t / 2.0), Degrees(a), sweep)) == outer
    ensures EndOf(trig, Arc(SquareAround(cap, t / 2.0), Degrees(a), sweep)) == inner
  {
    var ca, sa := trig.cos(a), trig.sin(a);
    var mid, half := (r + ir) / 2.0, t / 2.0;
    MidpointOnRay(c, ca, sa, r, ir);
    assert mid + half == r && mid + -half == ir;
    // the cap begins at the angle itself, `half` beyond the cap centre
    ArcPointOnCircle(trig, cap, half, a);
    OnRayCompose(c, ca, sa, mid, half);
    // and ends half a turn on, `half` short of the cap centre
    DegreesRoundTrip(a, a);
    var back := if sweep == 180.0 then a + PI else a - PI;
    assert Radians(Degrees(a) + sweep) == back;
    ArcPointAt(trig, cap, half, Degrees(a) + sweep, -ca, -sa);
    OnRayReversed(cap, ca, sa, half);
    OnRayCompose(c, ca, sa, mid, -half);
  }

  /**
   * With rounded caps both caps run from the outer rim to the inner rim.
   * The start cap therefore joins the outer arc to the inner arc, while the
   * end cap finishes at the inner end point, where the inner arc finishes
   * too, and begins at the outer end point, where the outer arc begins.
   */
  lemma RoundedOutlineJoins(p: ArcParams, trig: Trig)
    requires p.rounded
    requires HalfTurn(trig, p.start) && HalfTurn(trig, p.end)
    ensures var s, l := BuildPath(p, trig).segments, ComputeLayout(p, trig);
      && StartOf(trig, s[0]) == l.outerEnd && EndOf(trig, s[0]) == l.innerEnd
      && StartOf(trig, s[2]) == l.outerStart && EndOf(trig, s[2]) == l.innerStart
      && Joined(trig, s[1], s[2]) && Joined(trig, s[2], s[3])
      && StartOf(trig, s[0]) == StartOf(trig, s[1])
      && EndOf(trig, s[0]) == EndOf(trig, s[3])
  {
    var s, l := BuildPath(p, trig).segments, ComputeLayout(p, trig);
    RimArcEnds(p, trig);
    RoundedCapEnds(trig, l.center, l.radius, l.innerRadius, p.thickness, p.end, s[0].sweepDeg,
                   l.outerEnd, l.innerEnd, l.capEnd);
    RoundedCapEnds(trig, l.center, l.radius, l.innerRadius, p.thickness, p.start, s[2].sweepDeg,
                   l.outerStart, l.innerStart, l.capStart);
  }

  /**
   * So, with rounded caps and a ring of non-zero thickness, the end cap is
   * not joined to the outer arc, nor the inner arc to the end cap: GDI+
   * draws the straight chord from the inner to the outer end point twice,
   * once before the outer arc and once when the figure is closed.
   */
  lemma RoundedEndCapLeavesChord(p: ArcParams, trig: Trig)
    requires p.rounded && p.thickness != 0.0
    requires HalfTurn(trig, p.start) && HalfTurn(trig, p.end)
    requires trig.cos(p.end) != 0.0 || trig.sin(p.end) != 0.0
    ensures var s := BuildPath(p, trig).segments;
      !Joined(trig, s[0], s[1]) && !Joined(trig, s[3], s[0])
  {
    RoundedOutlineJoins(p, trig);
  }

  /**
   * With flat caps GDI+ traces the outline exactly as built: four primitives
   * and no joining or closing line.
   */
  lemma FlatOutlineTracedAsBuilt(p: ArcParams, trig: Trig)
    requires !p.rounded
    ensures Outline(trig, BuildPath(p, trig)) == BuildPath(p, trig).segments
  {
    var s := BuildPath(p, trig).segments;
    FlatOutlineIsClosedChain(p, trig);
    assert Chained(trig, s) by {
      assert forall i :: 0 <= i < 3 ==> Joined(trig, s[i], s[i + 1]);
    }
    OutlineLength(trig, BuildPath(p, trig));
  }

  /**
   * With rounded caps GDI+ traces six primitives: the end cap, the chord
   * from the inner to the outer end point, the outer arc, the start cap, the
   * inner arc, and the same chord again to close the figure.
   */
  lemma RoundedOutlineTracesChordTwice(p: ArcParams, trig: Trig)
    requires p.rounded && p.thickness != 0.0
    requires HalfTurn(trig, p.start) && HalfTurn(trig, p.end)
    requires trig.cos(p.end) != 0.0 || trig.sin(p.end) != 0.0
    ensures var s, l := BuildPath(p, trig).segments, ComputeLayout(p, trig);
      var chord := Line(l.innerEnd, l.outerEnd);
      Outline(trig, BuildPath(p, trig)) == [s[0], chord, s[1], s[2], s[3], chord]
  {
    var s, l := BuildPath(p, trig).segments, ComputeLayout(p, trig);
    var chord := Line(l.innerEnd, l.outerEnd);
    RoundedOutlineJoins(p, trig);
    RoundedEndCapLeavesChord(p, trig);
    assert s[..1] == [s[0]];
    assert Connect(trig, s[..2]) == [s[0], chord, s[1]] by {
      assert s[..2][..1] == s[..1];
    }
    assert Connect(trig, s[..3]) == [s[0], chord, s[1], s[2]] by {
      assert s[..3][..2] == s[..2];
    }
    assert Connect(trig, s) == [s[0], chord, s[1], s[2], s[3]] by {
      assert s[..3] == s[..|s| - 1];
    }
  }

  /**
   * Each rounded cap bulges away from the ring body: for distinct angles the
   * end cap turns the same way as the inner arc (from start towards end) and
   * the start cap the same way as the outer arc (from end towards start).
   */
  lemma CapsBulgeOutward(p: ArcParams, trig: Trig)
    requires p.rounded && p.start != p.end
    ensures var s := BuildPath(p, trig).segments;
      && (s[0].sweepDeg > 0.0 <==> s[3].sweepDeg > 0.0)
      && (s[2].sweepDeg > 0.0 <==> s[1].sweepDeg > 0.0)
  {
    DegreesRoundTrip(p.start, p.end);
  }

  /**
   * Equal angles are not an empty outline: the rims sweep nothing, and the
   * two caps are the two halves of one circle, the end cap sweeping -180
   * and the start cap +180 from the same angle.
   */
  lemma EqualAnglesGiveCapsule(p: ArcParams, trig: Trig)
    requires p.rounded && p.start == p.end
    ensures var s := BuildPath(p, trig).segments;
      && s[1].sweepDeg == 0.0 && s[3].sweepDeg == 0.0
      && s[0].sweepDeg == -180.0 && s[2].sweepDeg == 180.0
      && s[0].rect == s[2].rect && s[0].startDeg == s[2].startDeg
  {
  }

  /** The cap flag changes the two caps and nothing else: the rim arcs are the same either way. */
  lemma RoundedToggleKeepsRims(p: ArcParams, trig: Trig)
    ensures var s, t := BuildPath(p, trig).segments, BuildPath(p.(rounded := !p.rounded), trig).segments;
      && |s| == |t|
      && s[1] == t[1] && s[3] == t[3]
      && s[0] != t[0] && s[2] != t[2]
  {
  }

  /**
   * Swapping the angles reverses the traversal of the rims: each rim is
   * traced over the angles the other rim was, so both rim sweeps change
   * sign; flat caps become each other reversed. A rounded cap at a given
   * angle (for distinct angles) is the very same arc, so it keeps its
   * bulge; the two caps only trade places in the figure.
   */
  lemma SwappedAnglesReverseRims(p: ArcParams, trig: Trig)
    ensures var s, t := BuildPath(p, trig).segments, BuildPath(p.(start := p.end, end := p.start), trig).segments;
      && t[1] == Arc(s[1].rect, s[3].startDeg, s[3].sweepDeg)
      && t[3] == Arc(s[3].rect, s[1].startDeg, s[1].sweepDeg)
      && t[1].sweepDeg == -s[1].sweepDeg && t[3].sweepDeg == -s[3].sweepDeg
      && (!p.rounded ==> t[0] == Line(s[2].to, s[2].from) && t[2] == Line(s[0].to, s[0].from))
      && (p.rounded && p.start != p.end ==>
            t[0] == s[2] && t[2] == s[0])
  {
  }

  /**
   * With zero thickness the two rims are one circle, traced once each way,
   * and each cap collapses: a flat cap to a line of no length, a rounded cap
   * to a circle of no size.
   */
  lemma ZeroThicknessCollapses(p: ArcParams, trig: Trig)
    requires p.thickness == 0.0
    ensures var s := BuildPath(p, trig).segments;
      && s[1].rect == s[3].rect && s[1].sweepDeg == -s[3].sweepDeg
      && (!p.rounded ==> s[0].from == s[0].to && s[2].from == s[2].to)
      && (p.rounded ==> s[0].rect.width == 0.0 && s[2].rect.width == 0.0)
  {
  }

  /**
   * The inner radius is not clamped: a thickness above the outer radius
   * gives a negative inner radius and an inner square of negative size.
   */
  lemma InnerRadiusNotClamped(p: ArcParams, trig: Trig)
    requires p.thickness > OuterRadius(p.width, p.height, p.strokeWidth)
    ensures var l := ComputeLayout(p, trig);
      && l.innerRadius < 0.0
      && l.innerRect.width < 0.0 && l.innerRect.height < 0.0
      && BuildPath(p, trig).segments[3].rect == l.innerRect
  {
  }

  /**
   * A half ring on a 100 by 100 control without a pen, from angle 0 to
   * angle MathF.PI, 10 thick, with flat caps: the rims are the circles of
   * radius 50 and 40 about the middle of the control, traced over half a turn.
   */
  lemma HalfRingRims(p: ArcParams, trig: Trig)
    requires p == ArcParams(100, 100, None, 0.0, PI, 10.0, false)
    ensures var s, l := BuildPath(p, trig).segments, ComputeLayout(p, trig);
      && l.innerRadius == 40.0
      && s[1] == Arc(Rect(0.0, 0.0, 100.0, 100.0), 180.0, -180.0)
      && s[3] == Arc(Rect(10.0, 10.0, 80.0, 80.0), 0.0, 180.0)
  {
    var l := ComputeLayout(p, trig);
    assert l.angleStart == 0.0 && l.angleEnd == 180.0;
    assert l.outerRect == Rect(0.0, 0.0, 100.0, 100.0) && l.innerRect == Rect(10.0, 10.0, 80.0, 80.0);
  }

  /**
   * The same half ring, with cos and sin taking their exact values at 0 and
   * at the half turn: the rim points are the ends of the horizontal diameters.
   */
  lemma HalfRingPoints(p: ArcParams, trig: Trig)
    requires p == ArcParams(100, 100, None, 0.0, PI, 10.0, false)
    requires trig.cos(0.0) == 1.0 && trig.sin(0.0) == 0.0
    requires trig.cos(PI) == -1.0 && trig.sin(PI) == 0.0
    ensures var l := ComputeLayout(p, trig);
      && l.outerStart == Point(100.0, 50.0) && l.innerStart == Point(90.0, 50.0)
      && l.outerEnd == Point(0.0, 50.0) && l.innerEnd == Point(10.0, 50.0)
  {
    var l := ComputeLayout(p, trig);
    var c := Point(50.0, 50.0);
    HalfRingRims(p, trig);
    assert l.outerStart == OnRay(c, 1.0, 0.0, 50.0) && l.innerStart == OnRay(c, 1.0, 0.0, 40.0);
    assert l.outerEnd == OnRay(c, -1.0, 0.0, 50.0) && l.innerEnd == OnRay(c, -1.0, 0.0, 40.0);
  }

  /**
   * The end cap as evidently intended: the same half circle as the one the
   * renderer adds, traversed the other way, from the inner end point to the
   * outer end point.
   */
  function ReversedEndCap(p: ArcParams, l: Layout): (cap: Primitive)
    ensures cap.Arc? <==> p.rounded
    ensures p.rounded ==> var asWritten := EndCap(p, l);
      && cap.rect == asWritten.rect
      && cap.startDeg == asWritten.startDeg + asWritten.sweepDeg
      && cap.startDeg + cap.sweepDeg == asWritten.startDeg
    ensures !p.rounded ==> cap == EndCap(p, l)
  {
    if p.rounded then
      var sweep := EndCapSweep(l.endGreaterThanStart);
      Arc(SquareAround(l.capEnd, p.thickness / 2.0), Degrees(p.end) + sweep, -sweep)
    else
      Line(l.innerEnd, l.outerEnd)
  }

  /** The outline with the end cap traversed from the inner to the outer end point. */
  function CorrectedPath(p: ArcParams, trig: Trig): (f: Figure)
    ensures var built := BuildPath(p, trig);
      && f.closed && |f.segments| == 4 && f.segments[1..] == built.segments[1..]
      && f.segments[0] == ReversedEndCap(p, ComputeLayout(p, trig))
      && (!p.rounded ==> f == built)
  {
    var built := BuildPath(p, trig);
    built.(segments := built.segments[0 := ReversedEndCap(p, ComputeLayout(p, trig))])
  }

  /** The reversed cap runs from the inner point at its angle to the outer point. */
  lemma ReversedCapEnds(trig: Trig, c: Point, r: real, ir: real, t: real, a: real, sweep: real,
                        outer: Point, inner: Point, cap: Point)
    requires HalfTurn(trig, a)
    requires sweep == 180.0 || sweep == -180.0
    requires ir + t == r
    requires outer == OnRay(c, trig.cos(a), trig.sin(a), r) && inner == OnRay(c, trig.cos(a), trig.sin(a), ir)
    requires cap == Midpoint(outer, inner)
    ensures StartOf(trig, Arc(SquareAround(cap, t / 2.0), Degrees(a) + sweep, -sweep)) == inner
    ensures EndOf(trig, Arc(SquareAround(cap, t / 2.0), Degrees(a) + sweep, -sweep)) == outer
  {
    RoundedCapEnds(trig, c, r, ir, t, a, sweep, outer, inner, cap);
    assert Degrees(a) + sweep + -sweep == Degrees(a);
  }

  /**
   * With the end cap reversed, the rounded outline is one unbroken loop, and
   * GDI+ traces it as built: four primitives, no chord.
   */
  lemma CorrectedRoundedOutlineTracedAsBuilt(p: ArcParams, trig: Trig)
    requires p.rounded
    requires HalfTurn(trig, p.start) && HalfTurn(trig, p.end)
    ensures Outline(trig, CorrectedPath(p, trig)) == CorrectedPath(p, trig).segments
  {
    var s, l := CorrectedPath(p, trig).segments, ComputeLayout(p, trig);
    RoundedOutlineJoins(p, trig);
    RimArcEnds(p, trig);
    ReversedCapEnds(trig, l.center, l.radius, l.innerRadius, p.thickness, p.end,
                    EndCapSweep(l.endGreaterThanStart), l.outerEnd, l.innerEnd, l.capEnd);
    assert Joined(trig, s[0], s[1]) && Joined(trig, s[3], s[0]);
    assert Chained(trig, s) by {
      assert forall i :: 0 <= i < 3 ==> Joined(trig, s[i], s[i + 1]);
    }
    OutlineLength(trig, CorrectedPath(p, trig));
  }
}
