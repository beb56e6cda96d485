# ArcTest arc renderer, modelled in Dafny

`ArcRenderer` is a WinForms control that paints a ring segment: the part of
an annulus between a start angle and an end angle, as used by circular
progress bars and gauges. On every repaint it:

1. derives the outer radius from the smaller side of the control, less the
   width of the outline pen when one is set;
2. derives the inner radius by taking `CircleThickness` off it, with no
   clamping;
3. derives the centre, the outer and inner bounding squares, and the outer,
   inner and cap-centre points at both angles;
4. traces a closed figure of four primitives on a `GraphicsPath`:
   - the end cap;
   - the outer arc, from the end angle back to the start angle;
   - the start cap;
   - the inner arc, from the start angle to the end angle.

   Each cap is a radial line, or with `EnabledRoundedEndPoint` a half circle
   whose diameter is the thickness.
5. strokes the path with the pen (if any), then fills it with the brush
   (if any).

The model has four modules.

- `Drawing` (`drawing.dfy`) holds the System.Drawing value types
  (`Point`, `Rect`). It also holds MathF.PI as the exact single-precision
  value 13176795 / 2^22, and the radian/degree conversions. Finally it gives
  the meaning of an arc's angle: the point at that angle on the circle
  inscribed in the arc's square.
- `ArcTest` (`arc_renderer.dfy`) holds the pure form of the repaint and its
  step-by-step form:
  - `ComputeLayout` covers lines 115-165 and `BuildPath` lines 167-205.
  - The `GraphicsPath` class records `AddLine`/`AddArc`/`CloseFigure`.
  - The `ArcRenderer` class holds the control's fields. Its `OnPaint`
    builds the path one call at a time and is proved to build exactly
    `BuildPath` of its fields.
- `Figures` (`figure.dfy`) holds how GDI+ traces a figure:
  - where a line or an arc begins and ends;
  - the straight line it inserts before a primitive that does not begin
    where the previous one ended;
  - the closing line `CloseFigure` adds.

  `Connect` and `Outline` compute the traced primitives.
- `ArcProperties` (`arc_properties.dfy`) holds the lemmas about the outline.
  They cover where the points lie, how the primitives join up, and which way
  the caps bulge. They also cover what the cap flag and swapping the angles
  change, and the degenerate inputs.

Coordinates are `real`. `MathF.Sin` and `MathF.Cos` are the two fields of a
`Trig` record supplied by the caller. A lemma that needs a trigonometric
fact takes it as a hypothesis:
- `cos² + sin² = 1` at an angle;
- half a turn reverses the direction at an angle.

Half a turn here is MathF.PI, the single-precision value, which is not
exactly pi. The true cosine and sine only approximately change sign over
MathF.PI. The lemmas that assume a half turn (the rounded-cap ones) are
therefore about an idealised sine and cosine whose half period is MathF.PI.

The model follows the code where one might expect otherwise:
- the inner radius is not clamped at 0;
- a negative thickness is not rejected;
- a control of zero or negative size still gets the four-primitive path;
- the outer radius can be negative when the pen is wider than the control;
- swapping the angles does not flip the bulge of the caps. Take a rounded
  cap at a given angle, with distinct angles. After the swap it is the same
  arc: same square, start angle and sweep. Only the two rims are traced the
  other way, and the two caps trade places (`SwappedAnglesReverseRims`).

A ring outline is expected to be a simple contour. The code traces the
rounded end cap from the outer rim to the inner rim, while the outer arc
starts on the outer rim. GDI+ joins primitives that do not meet with a
straight line. So with rounded caps the traced outline runs along the end cap's
chord twice: once before the outer arc and once on closing
(`RoundedOutlineTracesChordTwice`). With flat caps the outline is traced
exactly as built (`FlatOutlineTracedAsBuilt`). The fill is painted after
the stroke and probably covers that chord. Without a fill brush the
stroked chord would show. See "## Findings".

## Model

| member | source | states |
|---|---|---|
| `Drawing.DegreesRoundTrip` | ArcTest/ArcRenderer.cs:162-165 | Converting an angle to degrees (`a / MathF.PI * 180`) and back gives the angle again. The conversion keeps the order of angles, so `End > Start` agrees with `angleEnd > angleStart`. It maps differences to differences, and half a turn in degrees (±180) to ±MathF.PI in radians. |
| `Drawing.MidpointOnRay` | ArcTest/ArcRenderer.cs:142-160 | The cap-centre point is the midpoint of the outer and inner points at an angle. It is also the point at the mean of the two radii along that angle. |
| `Drawing.ArcPointOnCircle` | ArcTest/ArcRenderer.cs:130-140 | Take the square drawn around a circle of radius `r` about `c`. The arc point on it at the degree form of angle `a` is `c + r (cos a, sin a)`, which is the same formula the renderer uses for its outer and inner points. |
| `Drawing.OnRayDistance` | ArcTest/ArcRenderer.cs:142-147 | A point at distance `r` along a unit direction lies on the circle of radius `r` about the origin. |
| `ArcTest.OuterRadius` | ArcTest/ArcRenderer.cs:115-121 | Twice the radius plus the pen width (0 without a pen) is at most the width and at most the height, and equals one of them. So it is `(min(Width, Height) - Stroke.Width) / 2`, with no clamping. |
| `ArcTest.ComputeLayout` | ArcTest/ArcRenderer.cs:115-165 | The inner radius is exactly the outer radius less the thickness. The centre is half the size. Both rim rectangles are squares centred on the centre, with sides twice the radii. The outer and inner points lie on the rays of the start and end angles. Each cap centre is the midpoint of the rim points at its angle. The degree angles are the conversions of the radian ones, and the direction flag holds exactly when `angleEnd > angleStart`. |
| `ArcTest.BuildPath` | ArcTest/ArcRenderer.cs:167-205 | The path has exactly four primitives and is closed. Primitive 2 is an arc on the outer square from the end angle. Primitive 4 is an arc on the inner square from the start angle. Each rim arc ends at the angle where the other begins, and their sweeps are exact negatives. The caps are arcs exactly when rounded caps are on. A rounded cap is on a thickness-sided square about its cap centre, starts at its own angle and sweeps ±180: the end cap +180 exactly when `End > Start`, the start cap the opposite way. A flat end cap is the line inner→outer end point, and a flat start cap is outer→inner start point. |
| `ArcTest.Passes` | ArcTest/ArcRenderer.cs:210-218 | The outline is stroked with the pen's width when a pen is set, and then filled when a brush is set, in that order and nothing else. |
| `ArcTest.GraphicsPath.constructor` | ArcTest/ArcRenderer.cs:167 | A new path holds no primitives and is open. |
| `ArcTest.GraphicsPath.AddLine` | ArcTest/ArcRenderer.cs:183 | Appends one line primitive and changes nothing else. |
| `ArcTest.GraphicsPath.AddArc` | ArcTest/ArcRenderer.cs:186 | Appends one arc primitive and changes nothing else. |
| `ArcTest.GraphicsPath.CloseFigure` | ArcTest/ArcRenderer.cs:205 | Marks the figure closed and keeps its primitives. |
| `ArcTest.ArcRenderer.constructor` | ArcTest/ArcRenderer.cs:16-29 | A new control starts with both angles and the thickness at 0 and flat caps. It has a pen of width 2 and a fill brush. |
| `ArcTest.ArcRenderer.OnPaint` | ArcTest/ArcRenderer.cs:109-219 | The repaint builds a fresh path whose primitives and closed flag are exactly `BuildPath` of the control's size and fields. It then lists the stroke and fill passes of `Passes`. |
| `Figures.Gaps` | ArcTest/ArcRenderer.cs:167-205 | The number of neighbouring primitives that do not meet is zero exactly when every primitive begins where the previous one ends. |
| `Figures.Connect` | ArcTest/ArcRenderer.cs:170-204 | The figure traced from the primitives added in order is at least as long as what was added. It starts with the first primitive added and ends with the last. Every traced primitive begins where the previous one ends. |
| `Figures.ConnectAddsOneLinePerGap` | ArcTest/ArcRenderer.cs:170-204 | Tracing adds exactly one joining line per pair of neighbours that do not meet. |
| `Figures.ConnectChainedUnchanged` | ArcTest/ArcRenderer.cs:170-204 | Primitives that already meet one another are traced exactly as added. |
| `Figures.ConnectKeepsPrimitives` | ArcTest/ArcRenderer.cs:170-204 | Every primitive added is traced, and anything tracing adds is a straight line. |
| `Figures.Outline` | ArcTest/ArcRenderer.cs:167-205 | The traced closed figure is an unbroken loop. Every primitive begins where the previous one ends, and the last ends where the first begins. It is at least as long as what was added. |
| `Figures.OutlineLength` | ArcTest/ArcRenderer.cs:167-205 | Closing adds one line exactly when the last primitive does not end where the first begins. A loop whose primitives all meet is traced as built. |
| `ArcProperties.RimPointsOnCircles` | ArcTest/ArcRenderer.cs:142-157 | For the renderer's layout, assume cos² + sin² = 1 at both angles. Then the outer start and end points lie on the circle of the outer radius about the centre, and the inner ones on the circle of the inner radius. |
| `ArcProperties.CapCircleThroughRimPoints` | ArcTest/ArcRenderer.cs:148-177 | For the renderer's layout, with unit directions at both angles, take the circle of diameter `CircleThickness` about each cap centre, which is the circle a rounded cap is drawn on. It passes through the outer and the inner point at that angle. |
| `ArcProperties.RimArcEnds` | ArcTest/ArcRenderer.cs:186-204 | The outer arc runs from the outer end point to the outer start point. The inner arc runs from the inner start point to the inner end point. |
| `ArcProperties.FlatOutlineIsClosedChain` | ArcTest/ArcRenderer.cs:183-205 | With flat caps, each primitive begins where the previous one ends, and the last ends where the first begins, whatever the trigonometry. So no joining lines are added. |
| `ArcProperties.RoundedCapEnds` | ArcTest/ArcRenderer.cs:170-197 | Assume half a turn reverses the direction at the cap's angle. Then a rounded cap sweeping ±180 from its angle starts at the outer point and ends at the inner point. |
| `ArcProperties.RoundedOutlineJoins` | ArcTest/ArcRenderer.cs:170-205 | With rounded caps, the start cap joins the outer arc to the inner arc. The end cap starts where the outer arc starts and ends where the inner arc ends. |
| `ArcProperties.RoundedEndCapLeavesChord` | ArcTest/ArcRenderer.cs:170-186 | Assume rounded caps, a non-zero thickness and a non-zero direction at the end angle. Then the end cap is joined neither to the outer arc nor to the inner arc, so GDI+ adds the chord between the end points twice. |
| `ArcProperties.FlatOutlineTracedAsBuilt` | ArcTest/ArcRenderer.cs:183-205 | With flat caps, GDI+ traces exactly the four primitives built, with no joining or closing line. |
| `ArcProperties.RoundedOutlineTracesChordTwice` | ArcTest/ArcRenderer.cs:170-205 | Assume rounded caps, a non-zero thickness and a non-zero direction at the end angle. Then GDI+ traces six primitives: end cap, the chord from the inner to the outer end point, outer arc, start cap, inner arc, and the same chord again. |
| `ArcProperties.CapsBulgeOutward` | ArcTest/ArcRenderer.cs:162-204 | When the angles differ, the rounded end cap turns the same way as the inner arc, and the start cap the same way as the outer arc. So each cap bulges away from the ring. |
| `ArcProperties.EqualAnglesGiveCapsule` | ArcTest/ArcRenderer.cs:162-204 | When `Start == End` with rounded caps, both rim arcs sweep 0. The end cap sweeps -180 and the start cap +180, on the same square from the same angle. |
| `ArcProperties.RoundedToggleKeepsRims` | ArcTest/ArcRenderer.cs:170-204 | Toggling `EnabledRoundedEndPoint` leaves the outer and inner arcs identical and changes both caps. |
| `ArcProperties.SwappedAnglesReverseRims` | ArcTest/ArcRenderer.cs:162-204 | Swapping `Start` and `End` reverses the rims. Each rim arc takes the angles the other rim had, so both sweeps change sign. Flat caps become each other reversed. For distinct angles, each rounded cap is the same arc as before and only trades its place with the other cap. |
| `ArcProperties.ZeroThicknessCollapses` | ArcTest/ArcRenderer.cs:122-201 | With zero thickness, both rim arcs are on the same square with opposite sweeps. Flat caps have no length, and rounded caps are on squares of no size. |
| `ArcProperties.InnerRadiusNotClamped` | ArcTest/ArcRenderer.cs:121-134 | A thickness above the outer radius gives a negative inner radius. The inner arc is then drawn on a square of negative size. |
| `ArcProperties.HalfRingRims` | ArcTest/ArcRenderer.cs:115-204 | On a 100×100 control without a pen, from 0 to MathF.PI with thickness 10, the inner radius is 40. The outer arc is on (0, 0, 100, 100) from 180° sweeping -180°. The inner arc is on (10, 10, 80, 80) from 0° sweeping 180°. |
| `ArcProperties.HalfRingPoints` | ArcTest/ArcRenderer.cs:142-157 | Take the same half ring. With cos and sin exact at 0 and at MathF.PI, the outer and inner start points are (100, 50) and (90, 50). The outer and inner end points are (0, 50) and (10, 50). |
| `ArcProperties.ReversedEndCap` | ArcTest/ArcRenderer.cs:170-179 | The intended end cap. With rounded caps, it is the renderer's end-cap arc traversed backwards: same square, starting where that arc ends and ending where it starts. With flat caps, it is the renderer's end cap. |
| `ArcProperties.CorrectedPath` | ArcTest/ArcRenderer.cs:167-205 | The outline with the end cap replaced by the reversed end cap. Everything else is as built, and it is identical to the built outline when caps are flat. |
| `ArcProperties.ReversedCapEnds` | ArcTest/ArcRenderer.cs:170-179 | Assume half a turn reverses the direction at the cap's angle. Then the reversed cap runs from the inner point to the outer point. |
| `ArcProperties.CorrectedRoundedOutlineTracedAsBuilt` | ArcTest/ArcRenderer.cs:170-205 | With rounded caps, and half turns reversing the direction at both angles, the corrected outline is one unbroken loop. GDI+ traces it as built: four primitives, no chord. |

## Left out

- The property setters of `Start`, `End`, `CircleThickness`, `EnabledRoundedEndPoint`, `Stroke` and `Fill` (ArcTest/ArcRenderer.cs:34-107) are left out: they store a field and call `Invalidate()`. The model's fields are assigned directly, and repaint scheduling belongs to the window system.
- `InitializeComponent` and `DoubleBuffered` in the constructor are UI plumbing.
- `StartFigure` (line 168) is left out: on the fresh path it is called on, it has no effect on the figure.
- `CompositingQuality`, `SmoothingMode` and the pixels that `DrawPath`/`FillPath` produce are rendering by GDI+. Only the order of the two passes is modelled.
- Single-precision floating point is not modelled: coordinates, radii and angles are exact reals. The `int` width and height are converted to reals exactly.
- The values of `MathF.Sin` and `MathF.Cos` are not modelled: they are an arbitrary caller-supplied `Trig`. Facts about them appear only as lemma hypotheses.
- How GDI+ draws an arc on a square of negative or zero size, or with a sweep beyond 360°, is not documented. `GraphicsPath` only records the arc it is given. Where an arc begins and ends is read with `Drawing.ArcPoint`'s formula for every square and every sweep. That formula is an assumption of this model on a square of negative size (a thickness above the outer radius, or a pen wider than the control) and on a square of zero size (rounded caps of thickness 0). It is also an assumption for a sweep beyond a full turn (`|End - Start| > 2·MathF.PI`), which GDI+ may clamp. The members below rest on that assumption in those cases:
- `ArcProperties.RimArcEnds`: for squares of negative or zero size and sweeps beyond a full turn, the end points it states follow from `ArcPoint`, not from documented GDI+ behaviour.
- `ArcProperties.FlatOutlineIsClosedChain`: the same caveat as `RimArcEnds` applies to its joins.
- `ArcProperties.FlatOutlineTracedAsBuilt`: the same caveat as `RimArcEnds`.
- `ArcProperties.RoundedCapEnds`: the same caveat for cap squares of negative or zero size.
- `ArcProperties.RoundedOutlineJoins`: the same caveat as `RimArcEnds` and `RoundedCapEnds`.
- `ArcProperties.RoundedEndCapLeavesChord`: the same caveat as `RoundedOutlineJoins`.
- `ArcProperties.RoundedOutlineTracesChordTwice`: the same caveat as `RoundedOutlineJoins`.
- `ArcProperties.ReversedCapEnds`: the same caveat as `RoundedCapEnds`.
- `ArcProperties.CorrectedRoundedOutlineTracedAsBuilt`: the same caveat as `RoundedOutlineJoins`.
- `Figures.ConnectKeepsPrimitives`: states that every added primitive is kept and anything added is a line, as multisets. It does not state that the added primitives keep their order; that order is visible in `RoundedOutlineTracesChordTwice` for the renderer's path.
- The arc-point meaning used for joins (`Drawing.ArcPoint`) is only stated for the squares the renderer uses. GDI+'s treatment of elliptical arcs is not modelled.
- `Figures.Connect` inserts a joining line only between points that differ. Whether GDI+ also records a line of no length is not modelled.
- `ArcTest.GraphicsPath` records the calls made on the path. The joining lines GDI+ adds are computed from that record by `Figures.Outline`, not stored in the path.
- The slider handler of the form (ArcTest/Form1.cs:15-18) and the form setup are UI glue.

## Findings

| source | as written | input that shows it | evidently intended | confidence | as-written member | corrected member |
|---|---|---|---|---|---|---|
| ArcTest/ArcRenderer.cs:170-186 | The rounded end cap is added from the outer end point to the inner end point, sweeping ±180 from `End`. The next primitive, the outer arc, starts at the outer end point, and the inner arc ends at the inner end point. GDI+ therefore joins the end cap to the outer arc with the chord from the inner to the outer end point, and closing the figure adds the same chord again. | Any ring with rounded caps, a non-zero thickness and a half turn that reverses the direction at both angles. One example is the form's setting of thickness 10 with rounded caps (ArcTest/Form1.cs:8-10). The traced outline is end cap, chord, outer arc, start cap, inner arc, chord. | The end cap traversed the other way, from the inner end point to the outer one. The outline is then one simple loop of four primitives, like the start cap's side. | medium, not executed: it rests on GDI+ adding a joining line between primitives that do not meet | `ArcProperties.RoundedOutlineTracesChordTwice` | `ArcProperties.CorrectedRoundedOutlineTracedAsBuilt` |

`ArcTest.ArcRenderer.OnPaint` keeps the end cap as the code writes it. The
corrected outline `ArcProperties.CorrectedPath` is stated beside it.
