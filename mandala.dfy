/**
 * drawMandalFractal of lib/fractals.ts: eight arms of glowing points around
 * the centre, then four rings of linked circles. The closure that draws one
 * point and each of the source's loops is a method on the context, proved
 * against a function that lists what it draws.
 */
module Mandala {
  import opened Types
  import opened Canvas
  import Curves

  /** The eight colours of the mandala, in the source's order. */
  const MandalaColors: seq<string> :=
    ["#00FFFF", "#00FF00", "#FF0000", "#FFFF00", "#FF00FF", "#0080FF", "#FF8000", "#8000FF"]

  /** What every step reads, fixed before the first one. */
  datatype Scene = Scene(
    trig: Trig, time: real, opacity: real, iterations: int, center: Point, maxRadius: real,
    transform: seq<Transform>)
  {
    /** Animation time is never negative (a frame timestamp, or 0 for a still). */
    predicate Valid() {
      time >= 0.0
    }
  }

  function MakeScene(g: Trig, time: real, p: ArtParameters, width: nat, height: nat, transform: seq<Transform>): (m: Scene)
    ensures m.center == Point(width as real / 2.0, height as real / 2.0)
    ensures m.maxRadius == Curves.MinReal(width as real, height as real) * 0.4
    ensures m.opacity == p.opacity && m.iterations == p.fractalIterations && m.transform == transform
  {
    Scene(g, time, p.opacity, p.fractalIterations, Point(width as real / 2.0, height as real / 2.0),
          Curves.MinReal(width as real, height as real) * 0.4, transform)
  }

  // ----- one point (the drawMandalaPoint closure) -----

  /** Where a point at `angle` and `radius` lands once the radius is rippled by ±10%. */
  function WaveRadius(m: Scene, angle: real, radius: real): real {
    radius * (1.0 + m.trig.sin(m.time * 0.002 + angle * 8.0) * 0.1)
  }

  function WavePoint(m: Scene, angle: real, radius: real): Point {
    m.trig.Polar(m.center, angle, WaveRadius(m, angle, radius))
  }

  /** The colour index of a point at depth `depth > 0`: `(depth + floor(time / 100)) % 8`. */
  function SpokeColor(m: Scene, depth: nat): (k: nat)
    requires m.Valid()
    ensures k < |MandalaColors|
  {
    (depth + (m.time * 0.01).Floor) % |MandalaColors|
  }

  function SpokeAlpha(m: Scene, depth: nat): real
    requires 0 < depth < m.iterations
  {
    m.opacity * (1.0 - depth as real / m.iterations as real)
  }

  /** The spoke a point at depth `depth > 0` draws: a line from the centre. */
  function Spoke(m: Scene, p: Point, depth: nat): Draw
    requires m.Valid() && 0 < depth < m.iterations
  {
    var c := MandalaColors[SpokeColor(m, depth)];
    Stroked([Move(m.center), Line(p)], SpokeAlpha(m, depth), Solid(c), 2.0 + depth as real * 0.5,
            Shadow(c, 5.0 + depth as real * 2.0), m.transform)
  }

  /** One filled dot; the shadow colour is the cyan of the first. */
  function Dot(m: Scene, p: Point, radius: real, alpha: real, color: nat, blur: real): Draw
    requires color < |MandalaColors|
  {
    Filled([Circle(p, radius)], alpha, Solid(MandalaColors[color]), Shadow(MandalaColors[0], blur), m.transform)
  }

  /**
   * The three dots a point at depth 0 fills: radii 8, 4 and 1.5; the shadow
   * colour stays cyan for all three while the blur drops from 20 to 5.
   */
  function Dots(m: Scene, p: Point): (r: seq<Draw>)
    ensures |r| == 3
  {
    [Dot(m, p, 8.0, m.opacity, 0, 20.0), Dot(m, p, 4.0, m.opacity * 0.8, 2, 10.0), Dot(m, p, 1.5, m.opacity, 3, 5.0)]
  }

  /** What drawMandalaPoint(angle, radius, depth) draws. */
  function PointDraws(m: Scene, angle: real, radius: real, depth: nat): (r: seq<Draw>)
    requires m.Valid() && (depth == 0 || depth < m.iterations)
    ensures |r| == if depth == 0 then 3 else 1
  {
    var p := WavePoint(m, angle, radius);
    if depth == 0 then Dots(m, p) else [Spoke(m, p, depth)]
  }

  /** One dot of a depth-0 point: its alpha, fill colour and blur, one circle, one fill. */
  method FillDot(ctx: Context, m: Scene, p: Point, radius: real, alpha: real, color: nat, blur: real)
    requires color < |MandalaColors| && m.transform == ctx.transform && ctx.shadowColor == MandalaColors[0]
    modifies ctx`globalAlpha, ctx`fillStyle, ctx`shadowBlur, ctx`path, ctx`drawn
    ensures ctx.drawn == old(ctx.drawn) + [Dot(m, p, radius, alpha, color, blur)]
  {
    ctx.globalAlpha := alpha;
    ctx.fillStyle := Solid(MandalaColors[color]);
    ctx.shadowBlur := blur;
    ctx.BeginPath();
    ctx.Arc(p.x, p.y, radius);
    ghost var d := Dot(m, p, radius, alpha, color, blur);
    assert ctx.path == d.path;
    assert ctx.CurrentShadow() == d.shadow;
    ctx.Fill();
  }

  method DrawDots(ctx: Context, m: Scene, p: Point)
    requires m.transform == ctx.transform
    modifies ctx`globalAlpha, ctx`fillStyle, ctx`shadowColor, ctx`shadowBlur, ctx`path, ctx`drawn
    ensures ctx.drawn == old(ctx.drawn) + Dots(m, p)
  {
    ctx.shadowColor := MandalaColors[0];
    FillDot(ctx, m, p, 8.0, m.opacity, 0, 20.0);
    FillDot(ctx, m, p, 4.0, m.opacity * 0.8, 2, 10.0);
    FillDot(ctx, m, p, 1.5, m.opacity, 3, 5.0);
  }

  method DrawSpoke(ctx: Context, m: Scene, p: Point, depth: nat)
    requires m.Valid() && 0 < depth < m.iterations && m.transform == ctx.transform
    modifies ctx`globalAlpha, ctx`strokeStyle, ctx`lineWidth, ctx`shadowColor, ctx`shadowBlur, ctx`path, ctx`drawn
    ensures ctx.drawn == old(ctx.drawn) + [Spoke(m, p, depth)]
  {
    var colorIndex := SpokeColor(m, depth);
    ctx.strokeStyle := Solid(MandalaColors[colorIndex]);
    ctx.lineWidth := 2.0 + depth as real * 0.5;
    ctx.globalAlpha := SpokeAlpha(m, depth);
    ctx.shadowColor := MandalaColors[colorIndex];
    ctx.shadowBlur := 5.0 + depth as real * 2.0;
    ctx.BeginPath();
    ctx.MoveTo(m.center.x, m.center.y);
    ctx.LineTo(p.x, p.y);
    assert ctx.path == [Move(m.center), Line(p)];
    ctx.Stroke();
  }

  method DrawMandalaPoint(ctx: Context, m: Scene, angle: real, radius: real, depth: nat)
    requires m.Valid() && (depth == 0 || depth < m.iterations) && m.transform == ctx.transform
    modifies ctx`globalAlpha, ctx`fillStyle, ctx`strokeStyle, ctx`lineWidth, ctx`shadowColor, ctx`shadowBlur
    modifies ctx`path, ctx`drawn
    ensures ctx.drawn == old(ctx.drawn) + PointDraws(m, angle, radius, depth)
  {
    var p := WavePoint(m, angle, radius);
    if depth == 0 {
      DrawDots(ctx, m, p);
    } else {
      DrawSpoke(ctx, m, p, depth);
    }
  }

  // ----- the eight arms -----

  const NumPoints := 8

  /** The angle of arm `i`: `(i / 8)·2π + time / 1000`. */
  function ArmAngle(m: Scene, i: nat): real {
    (i as real / NumPoints as real) * m.trig.pi * 2.0 + m.time * 0.001
  }

  function ArmRadius(m: Scene): real {
    m.maxRadius * 0.3
  }

  function SubRadius(radius: real, depth: nat): real {
    radius * (0.5 + depth as real * 0.2)
  }

  function SubAngle(m: Scene, angle: real, depth: nat): real {
    angle + m.trig.sin(m.time * 0.003 + depth as real) * 0.5
  }

  /** Where the depth loop of an arm stops: `min(fractalIterations, 6)`, or 1 when that is smaller. */
  function Reach(m: Scene): (k: nat)
    ensures 1 <= k <= 6
    ensures k > 1 ==> k <= m.iterations
  {
    var r := Curves.MinInt(m.iterations, 6);
    if r < 1 then 1 else r
  }

  /** The points at depths `1 .. k-1` of the arm at `angle` and `radius`. */
  function Branches(m: Scene, angle: real, radius: real, k: nat): (r: seq<Draw>)
    requires m.Valid() && 1 <= k <= Reach(m)
    ensures |r| == k - 1
  {
    if k == 1 then [] else
      Branches(m, angle, radius, k - 1) + PointDraws(m, SubAngle(m, angle, k - 1), SubRadius(radius, k - 1), k - 1)
  }

  /** Everything arm `i` draws: the three dots at depth 0, then one spoke per further depth. */
  function Arm(m: Scene, i: nat): (r: seq<Draw>)
    requires m.Valid()
    ensures |r| == 2 + Reach(m)
  {
    PointDraws(m, ArmAngle(m, i), ArmRadius(m), 0) + Branches(m, ArmAngle(m, i), ArmRadius(m), Reach(m))
  }

  function Arms(m: Scene, n: nat): (r: seq<Draw>)
    requires m.Valid()
    ensures |r| == n * (2 + Reach(m))
  {
    if n == 0 then [] else Arms(m, n - 1) + Arm(m, n - 1)
  }

  lemma BranchStep(m: Scene, angle: real, radius: real, k: nat, d0: seq<Draw>, before: seq<Draw>, after: seq<Draw>)
    requires m.Valid() && 1 <= k < Reach(m)
    requires before == d0 + Branches(m, angle, radius, k)
    requires after == before + PointDraws(m, SubAngle(m, angle, k), SubRadius(radius, k), k)
    ensures after == d0 + Branches(m, angle, radius, k + 1)
  {
    Curves.AppendAssoc(d0, Branches(m, angle, radius, k), PointDraws(m, SubAngle(m, angle, k), SubRadius(radius, k), k));
  }

  method DrawArm(ctx: Context, m: Scene, i: nat)
    requires m.Valid() && m.transform == ctx.transform
    modifies ctx`globalAlpha, ctx`fillStyle, ctx`strokeStyle, ctx`lineWidth, ctx`shadowColor, ctx`shadowBlur
    modifies ctx`path, ctx`drawn
    ensures ctx.drawn == old(ctx.drawn) + Arm(m, i)
  {
    var angle := ArmAngle(m, i);
    var radius := ArmRadius(m);
    DrawMandalaPoint(ctx, m, angle, radius, 0);
    ghost var d0 := ctx.drawn;
    var depth := 1;
    while depth < Curves.MinInt(m.iterations, 6)
      invariant 1 <= depth <= Reach(m)
      invariant ctx.drawn == d0 + Branches(m, angle, radius, depth)
      invariant m.transform == ctx.transform
    {
      var subRadius := SubRadius(radius, depth);
      var subAngle := SubAngle(m, angle, depth);
      ghost var before := ctx.drawn;
      DrawMandalaPoint(ctx, m, subAngle, subRadius, depth);
      BranchStep(m, angle, radius, depth, d0, before, ctx.drawn);
      depth := depth + 1;
    }
    Curves.AppendAssoc(old(ctx.drawn), PointDraws(m, angle, radius, 0), Branches(m, angle, radius, depth));
  }

  method DrawArms(ctx: Context, m: Scene)
    requires m.Valid() && m.transform == ctx.transform
    modifies ctx`globalAlpha, ctx`fillStyle, ctx`strokeStyle, ctx`lineWidth, ctx`shadowColor, ctx`shadowBlur
    modifies ctx`path, ctx`drawn
    ensures ctx.drawn == old(ctx.drawn) + Arms(m, NumPoints)
  {
    ghost var d0 := ctx.drawn;
    var i := 0;
    while i < NumPoints
      invariant 0 <= i <= NumPoints
      invariant ctx.drawn == d0 + Arms(m, i)
      invariant m.transform == ctx.transform
    {
      DrawArm(ctx, m, i);
      Curves.AppendAssoc(d0, Arms(m, i), Arm(m, i));
      i := i + 1;
    }
  }

  // ----- the four rings -----

  function RingRadius(m: Scene, ring: nat): real {
    m.maxRadius * (0.1 + ring as real * 0.15)
  }

  function PointsInRing(ring: nat): nat {
    NumPoints * (ring + 1)
  }

  /** Point `i` of ring `ring`, at `(i / n)·2π + time / 500` and radius `ringRadius + 10·sin(time / 1000 + i)`. */
  function RingPoint(m: Scene, ring: nat, i: int): Point {
    var n := PointsInRing(ring) as real;
    var angle := (i as real / n) * m.trig.pi * 2.0 + m.time * 0.002;
    var radius := RingRadius(m, ring) + m.trig.sin(m.time * 0.001 + i as real) * 10.0;
    m.trig.Polar(m.center, angle, radius)
  }

  /** The start of the link to point `i`, recomputed from `i - 1` the way the source writes it. */
  function PrevRingPoint(m: Scene, ring: nat, i: nat): Point {
    var n := PointsInRing(ring) as real;
    var prevAngle := ((i - 1) as real / n) * m.trig.pi * 2.0 + m.time * 0.002;
    var prevRadius := RingRadius(m, ring) + m.trig.sin(m.time * 0.001 + i as real - 1.0) * 10.0;
    m.trig.Polar(m.center, prevAngle, prevRadius)
  }

  function RingAlpha(m: Scene, ring: nat): real {
    m.opacity * (0.8 - ring as real * 0.1)
  }

  function RingColor(ring: nat, i: nat): (k: nat)
    ensures k < |MandalaColors|
  {
    (i + ring) % |MandalaColors|
  }

  /** The style every stroke of point `i` of ring `ring` reads. */
  function RingStroke(m: Scene, ring: nat, i: nat, path: seq<PathOp>): Draw {
    var c := MandalaColors[RingColor(ring, i)];
    Stroked(path, RingAlpha(m, ring), Solid(c), 1.0 + ring as real * 0.5, Shadow(c, 3.0 + ring as real), m.transform)
  }

  /** The circle of radius `2 + ring` around point `i`. */
  function RingCircle(m: Scene, ring: nat, i: nat): Draw {
    RingStroke(m, ring, i, [Circle(RingPoint(m, ring, i), 2.0 + ring as real)])
  }

  /** The link from point `i - 1` to point `i`, in the style of point `i`. */
  function RingLink(m: Scene, ring: nat, i: nat): Draw {
    RingStroke(m, ring, i, [Move(PrevRingPoint(m, ring, i)), Line(RingPoint(m, ring, i))])
  }

  /** Point `i` of a ring: its circle, then, after the first, the link into it. */
  function RingPointDraws(m: Scene, ring: nat, i: nat): (r: seq<Draw>)
    ensures |r| == if i == 0 then 1 else 2
  {
    if i == 0 then [RingCircle(m, ring, 0)] else [RingCircle(m, ring, i), RingLink(m, ring, i)]
  }

  /** Which point draw `k` of a ring belongs to: draw 0 is point 0, draws `2i-1` and `2i` are point `i`. */
  function ItemPoint(k: nat): nat {
    (k + 1) / 2
  }

  /** Whether draw `k` of a ring is a link: the even draws after the first. */
  predicate IsLink(k: nat) {
    k > 0 && k % 2 == 0
  }

  function RingItem(m: Scene, ring: nat, k: nat): Draw {
    if IsLink(k) then RingLink(m, ring, ItemPoint(k)) else RingCircle(m, ring, ItemPoint(k))
  }

  /** Points `0 .. n-1` of ring `ring`: `2n - 1` draws. */
  function RingDraws(m: Scene, ring: nat, n: nat): (r: seq<Draw>)
    ensures |r| == if n == 0 then 0 else 2 * n - 1
  {
    seq(if n == 0 then 0 else 2 * n - 1, k requires 0 <= k => RingItem(m, ring, k))
  }

  /** The draws of point `i` sit at `2i - 1` and `2i` (point 0 at draw 0). */
  lemma ItemsOfPoint(i: nat)
    ensures i == 0 ==> ItemPoint(0) == 0 && !IsLink(0)
    ensures i > 0 ==> ItemPoint(2 * i - 1) == i && !IsLink(2 * i - 1)
    ensures i > 0 ==> ItemPoint(2 * i) == i && IsLink(2 * i)
  {
  }

  /** Rings `1 .. k`. */
  function Rings(m: Scene, k: nat): (r: seq<Draw>)
  {
    if k == 0 then [] else Rings(m, k - 1) + RingDraws(m, k, PointsInRing(k))
  }

  /** Sets the style of point `i` of ring `ring`. */
  method SetRingStyle(ctx: Context, m: Scene, ring: nat, i: nat)
    modifies ctx`globalAlpha, ctx`strokeStyle, ctx`lineWidth, ctx`shadowColor, ctx`shadowBlur
    ensures var c := MandalaColors[RingColor(ring, i)];
      && ctx.strokeStyle == Solid(c) && ctx.shadowColor == c
      && ctx.lineWidth == 1.0 + ring as real * 0.5 && ctx.globalAlpha == RingAlpha(m, ring)
      && ctx.shadowBlur == 3.0 + ring as real
  {
    var colorIndex := RingColor(ring, i);
    ctx.strokeStyle := Solid(MandalaColors[colorIndex]);
    ctx.lineWidth := 1.0 + ring as real * 0.5;
    ctx.globalAlpha := RingAlpha(m, ring);
    ctx.shadowColor := MandalaColors[colorIndex];
    ctx.shadowBlur := 3.0 + ring as real;
  }

  /** Strokes the current path in the style of point `i` of ring `ring`. */
  method StrokeRing(ctx: Context, m: Scene, ring: nat, i: nat)
    requires m.transform == ctx.transform
    requires var c := MandalaColors[RingColor(ring, i)];
      && ctx.strokeStyle == Solid(c) && ctx.shadowColor == c
      && ctx.lineWidth == 1.0 + ring as real * 0.5 && ctx.globalAlpha == RingAlpha(m, ring)
      && ctx.shadowBlur == 3.0 + ring as real
    modifies ctx`drawn
    ensures ctx.drawn == old(ctx.drawn) + [RingStroke(m, ring, i, ctx.path)]
  {
    ghost var d := RingStroke(m, ring, i, ctx.path);
    assert ctx.CurrentShadow() == d.shadow;
    ctx.Stroke();
  }

  method DrawRingPoint(ctx: Context, m: Scene, ring: nat, i: nat)
    requires m.transform == ctx.transform
    modifies ctx`globalAlpha, ctx`strokeStyle, ctx`lineWidth, ctx`shadowColor, ctx`shadowBlur, ctx`path, ctx`drawn
    ensures ctx.drawn == old(ctx.drawn) + RingPointDraws(m, ring, i)
  {
    SetRingStyle(ctx, m, ring, i);
    var p := RingPoint(m, ring, i);
    ghost var d := RingPointDraws(m, ring, i);
    ctx.BeginPath();
    ctx.Arc(p.x, p.y, 2.0 + ring as real);
    assert ctx.path == [Circle(p, 2.0 + ring as real)];
    StrokeRing(ctx, m, ring, i);
    assert ctx.drawn == old(ctx.drawn) + [d[0]];
    if i > 0 {
      var prev := PrevRingPoint(m, ring, i);
      ctx.BeginPath();
      ctx.MoveTo(prev.x, prev.y);
      ctx.LineTo(p.x, p.y);
      assert ctx.path == [Move(prev), Line(p)];
      StrokeRing(ctx, m, ring, i);
      assert ctx.drawn == old(ctx.drawn) + [d[0]] + [d[1]];
    }
  }

  lemma RingStep(m: Scene, ring: nat, i: nat, d0: seq<Draw>, before: seq<Draw>, after: seq<Draw>)
    requires before == d0 + RingDraws(m, ring, i)
    requires after == before + RingPointDraws(m, ring, i)
    ensures after == d0 + RingDraws(m, ring, i + 1)
  {
    var a, b, c := RingDraws(m, ring, i), RingPointDraws(m, ring, i), RingDraws(m, ring, i + 1);
    ItemsOfPoint(i);
    assert c[..|a|] == a;
    if i == 0 {
      assert c[|a|..] == [RingItem(m, ring, 0)] == b;
    } else {
      assert c[|a|..] == [RingItem(m, ring, 2 * i - 1), RingItem(m, ring, 2 * i)] == b;
    }
    assert c == c[..|a|] + c[|a|..];
    Curves.AppendAssoc(d0, a, b);
  }

  lemma RingsStep(m: Scene, ring: nat, d0: seq<Draw>, before: seq<Draw>, after: seq<Draw>)
    requires ring >= 1
    requires before == d0 + Rings(m, ring - 1)
    requires after == before + RingDraws(m, ring, PointsInRing(ring))
    ensures after == d0 + Rings(m, ring)
  {
    Curves.AppendAssoc(d0, Rings(m, ring - 1), RingDraws(m, ring, PointsInRing(ring)));
  }

  method DrawRing(ctx: Context, m: Scene, ring: nat)
    requires m.transform == ctx.transform
    modifies ctx`globalAlpha, ctx`strokeStyle, ctx`lineWidth, ctx`shadowColor, ctx`shadowBlur, ctx`path, ctx`drawn
    ensures ctx.drawn == old(ctx.drawn) + RingDraws(m, ring, PointsInRing(ring))
  {
    ghost var d0 := ctx.drawn;
    var pointsInRing := PointsInRing(ring);
    var i := 0;
    while i < pointsInRing
      invariant 0 <= i <= pointsInRing
      invariant ctx.drawn == d0 + RingDraws(m, ring, i)
      invariant m.transform == ctx.transform
    {
      ghost var before := ctx.drawn;
      DrawRingPoint(ctx, m, ring, i);
      RingStep(m, ring, i, d0, before, ctx.drawn);
      i := i + 1;
    }
  }

  method DrawRings(ctx: Context, m: Scene)
    requires m.transform == ctx.transform
    modifies ctx`globalAlpha, ctx`strokeStyle, ctx`lineWidth, ctx`shadowColor, ctx`shadowBlur, ctx`path, ctx`drawn
    ensures ctx.drawn == old(ctx.drawn) + Rings(m, 4)
  {
    ghost var d0 := ctx.drawn;
    var ring := 1;
    while ring <= 4
      invariant 1 <= ring <= 5
      invariant ctx.drawn == d0 + Rings(m, ring - 1)
      invariant m.transform == ctx.transform
    {
      ghost var before := ctx.drawn;
      DrawRing(ctx, m, ring);
      RingsStep(m, ring, d0, before, ctx.drawn);
      ring := ring + 1;
    }
  }

  // ----- the whole frame -----

  function MandalaFrame(m: Scene): seq<Draw>
    requires m.Valid()
  {
    Arms(m, NumPoints) + Rings(m, 4)
  }

  /**
   * drawMandalFractal: eight arms, then four rings, then the shadow blur is
   * reset. Every attribute a draw reads is assigned before it, so the frame
   * depends on the context only through its size and transform.
   */
  method DrawMandala(ctx: Context, g: Trig, time: real, p: ArtParameters)
    requires time >= 0.0
    modifies ctx`globalAlpha, ctx`fillStyle, ctx`strokeStyle, ctx`lineWidth, ctx`shadowColor, ctx`shadowBlur
    modifies ctx`path, ctx`drawn
    ensures ctx.drawn == old(ctx.drawn) + MandalaFrame(MakeScene(g, time, p, ctx.width, ctx.height, ctx.transform))
    ensures ctx.shadowBlur == 0.0
  {
    var m := MakeScene(g, time, p, ctx.width, ctx.height, ctx.transform);
    DrawArms(ctx, m);
    DrawRings(ctx, m);
    Curves.AppendAssoc(old(ctx.drawn), Arms(m, NumPoints), Rings(m, 4));
    ctx.shadowBlur := 0.0;
  }

  // ----- properties of a frame -----

  /** Eight arms of `2 + Reach` draws each, then rings of 16, 24, 32 and 40 points: 31 + 47 + 63 + 79 strokes. */
  lemma MandalaCount(m: Scene)
    requires m.Valid()
    ensures |MandalaFrame(m)| == 8 * (2 + Reach(m)) + 220
  {
    assert |Rings(m, 1)| == 31;
    assert |Rings(m, 2)| == 31 + 47;
    assert |Rings(m, 3)| == 31 + 47 + 63;
    assert |Rings(m, 4)| == 31 + 47 + 63 + 79;
  }

  /** A spoke: a stroked line out of the centre. */
  ghost predicate IsSpoke(m: Scene, d: Draw) {
    d.Stroked? && |d.path| == 2 && d.path[0] == Move(m.center) && d.path[1].Line?
  }

  lemma {:induction false} BranchesAreSpokes(m: Scene, angle: real, radius: real, k: nat)
    requires m.Valid() && 1 <= k <= Reach(m)
    ensures forall d <- Branches(m, angle, radius, k) :: IsSpoke(m, d)
  {
    if k > 1 {
      BranchesAreSpokes(m, angle, radius, k - 1);
    }
  }

  /**
   * Arm `i` fills the three dots of its depth-0 point, then strokes
   * `Reach - 1 = max(0, min(fractalIterations, 6) - 1)` spokes out of the centre.
   */
  lemma ArmShape(m: Scene, i: nat)
    requires m.Valid()
    ensures var a := Arm(m, i);
      && a[..3] == Dots(m, WavePoint(m, ArmAngle(m, i), ArmRadius(m)))
      && |a| - 3 == Reach(m) - 1
      && forall j :: 3 <= j < |a| ==> IsSpoke(m, a[j])
  {
    var a := Arm(m, i);
    var b := Branches(m, ArmAngle(m, i), ArmRadius(m), Reach(m));
    BranchesAreSpokes(m, ArmAngle(m, i), ArmRadius(m), Reach(m));
    assert a == PointDraws(m, ArmAngle(m, i), ArmRadius(m), 0) + b;
    forall j | 3 <= j < |a|
      ensures IsSpoke(m, a[j])
    {
      assert a[j] == b[j - 3];
      assert a[j] in b;
    }
  }

  /** Paint and shadow both take one of the eight mandala colours, and the draw keeps the scene's transform. */
  ghost predicate Styled(m: Scene, d: Draw) {
    && (d.Filled? || d.Stroked?)
    && d.paint.Solid? && d.paint.color in MandalaColors
    && d.shadow.color in MandalaColors
    && d.transform == m.transform
  }

  lemma PointStyled(m: Scene, angle: real, radius: real, depth: nat)
    requires m.Valid() && (depth == 0 || depth < m.iterations)
    ensures forall d <- PointDraws(m, angle, radius, depth) :: Styled(m, d)
  {
  }

  lemma {:induction false} BranchesStyled(m: Scene, angle: real, radius: real, k: nat)
    requires m.Valid() && 1 <= k <= Reach(m)
    ensures forall d <- Branches(m, angle, radius, k) :: Styled(m, d)
  {
    if k > 1 {
      BranchesStyled(m, angle, radius, k - 1);
      PointStyled(m, SubAngle(m, angle, k - 1), SubRadius(radius, k - 1), k - 1);
    }
  }

  lemma {:induction false} ArmsStyled(m: Scene, n: nat)
    requires m.Valid()
    ensures forall d <- Arms(m, n) :: Styled(m, d)
  {
    if n > 0 {
      ArmsStyled(m, n - 1);
      PointStyled(m, ArmAngle(m, n - 1), ArmRadius(m), 0);
      BranchesStyled(m, ArmAngle(m, n - 1), ArmRadius(m), Reach(m));
    }
  }

  lemma {:induction false} RingsStyled(m: Scene, k: nat)
    ensures forall d <- Rings(m, k) :: Styled(m, d)
  {
    if k > 0 {
      RingsStyled(m, k - 1);
      var r := RingDraws(m, k, PointsInRing(k));
      forall j | 0 <= j < |r|
        ensures Styled(m, r[j])
      {
        assert r[j] == RingItem(m, k, j);
      }
    }
  }

  /** Every draw of a frame is a fill or a stroke in mandala colours, under the scene's transform. */
  lemma MandalaPalette(m: Scene)
    requires m.Valid()
    ensures forall d <- MandalaFrame(m) :: Styled(m, d)
  {
    ArmsStyled(m, NumPoints);
    RingsStyled(m, 4);
  }

  /** Spokes fade with depth: deeper spokes are fainter, and all are visible when the opacity is. */
  lemma SpokesFade(m: Scene, d1: nat, d2: nat)
    requires 0 < d1 < d2 < m.iterations && m.opacity > 0.0
    ensures 0.0 < SpokeAlpha(m, d2) < SpokeAlpha(m, d1) < m.opacity
  {
    var it := m.iterations as real;
    var f1, f2 := 1.0 - d1 as real / it, 1.0 - d2 as real / it;
    assert d1 as real / it < d2 as real / it < 1.0;
    assert 0.0 < f2 < f1 < 1.0;
    assert SpokeAlpha(m, d1) == m.opacity * f1 && SpokeAlpha(m, d2) == m.opacity * f2;
    assert m.opacity * f2 < m.opacity * f1 < m.opacity * 1.0;
  }

  /** Colours walk the palette one step per depth along an arm and one step per point around a ring. */
  lemma ColorsCycle(m: Scene, depth: nat, ring: nat, i: nat)
    requires m.Valid()
    ensures SpokeColor(m, depth + 1) == (SpokeColor(m, depth) + 1) % 8
    ensures RingColor(ring, i + 1) == (RingColor(ring, i) + 1) % 8
    ensures RingColor(ring, i + 1) != RingColor(ring, i)
  {
  }

  /** The link into point `i` starts where the source recomputes point `i - 1`: the same point. */
  lemma PrevIsPrevious(m: Scene, ring: nat, i: nat)
    requires i > 0
    ensures PrevRingPoint(m, ring, i) == RingPoint(m, ring, i - 1)
  {
    var n := PointsInRing(ring) as real;
    assert (i - 1) as real == i as real - 1.0;
    assert m.time * 0.001 + i as real - 1.0 == m.time * 0.001 + (i - 1) as real;
  }

  /**
   * A ring of `n` points is an open chain: draw `2i - 1` circles point `i`,
   * and draw `2i` links point `i - 1` to point `i`; point 0 has no link into it.
   */
  lemma RingIsChain(m: Scene, ring: nat, n: nat, i: nat)
    requires 0 < i < n
    ensures var r := RingDraws(m, ring, n);
      && r[0].path == [Circle(RingPoint(m, ring, 0), 2.0 + ring as real)]
      && r[2 * i - 1].path == [Circle(RingPoint(m, ring, i), 2.0 + ring as real)]
      && r[2 * i].path == [Move(RingPoint(m, ring, i - 1)), Line(RingPoint(m, ring, i))]
  {
    ItemsOfPoint(i);
    ItemsOfPoint(0);
    PrevIsPrevious(m, ring, i);
  }
}
