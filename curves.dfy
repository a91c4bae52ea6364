/**
 * The three recursive line fractals of lib/fractals.ts: the Sierpinski
 * triangle, the Koch snowflake and the dragon curve. Each recursive closure
 * of the source is a recursive method on the context, proved against a
 * function that lists what it draws.
 */
module Curves {
  import opened Types
  import opened Canvas
  import Constants

  /**
   * What a fractal reads besides its arguments, fixed before the first call:
   * the trigonometry, the opacity, the palette, `fractalIterations` and the
   * shadow and transform the context already holds.
   */
  datatype Pen = Pen(
    trig: Trig, opacity: real, colors: seq<string>, iterations: int,
    shadow: Shadow, transform: seq<Transform>)
  {
    predicate Valid() {
      trig.Valid() && |colors| > 0
    }
  }

  function MakePen(g: Trig, p: ArtParameters, colors: seq<string>, shadow: Shadow, transform: seq<Transform>): (pen: Pen)
    ensures pen.opacity == p.opacity && pen.iterations == p.fractalIterations && pen.colors == colors
    ensures pen.shadow == shadow && pen.transform == transform
  {
    Pen(g, p.opacity, colors, p.fractalIterations, shadow, transform)
  }

  function MinInt(a: int, b: int): int {
    if a <= b then a else b
  }

  function MinReal(a: real, b: real): real {
    if a <= b then a else b
  }

  function Pow(b: nat, k: nat): (r: nat)
    ensures b > 0 ==> r > 0
  {
    if k == 0 then 1 else b * Pow(b, k - 1)
  }

  /** Truncation toward zero. */
  function Trunc(q: real): int {
    if q >= 0.0 then q.Floor else -((-q).Floor)
  }

  /** JavaScript's `%` on numbers: the remainder keeps the sign of the dividend. */
  function Rem(a: real, m: real): (r: real)
    requires m > 0.0
    ensures a >= 0.0 ==> 0.0 <= r < m
  {
    var t := Trunc(a / m);
    if a >= 0.0 then
      RemBound(a, m, t);
      a - m * t as real
    else
      a - m * t as real
  }

  lemma RemBound(a: real, m: real, t: int)
    requires m > 0.0 && a >= 0.0 && t == (a / m).Floor
    ensures 0.0 <= a - m * t as real < m
  {
    var f := a / m - t as real;
    assert a == m * (a / m);
    assert a - m * t as real == m * f;
    assert m - m * f == m * (1.0 - f);
  }

  /** `(time * 0.001) % (2π)`, the starting angle of the snowflake and the dragon. */
  function StartAngle(g: Trig, time: real): real
    requires g.Valid()
  {
    Rem(time * 0.001, g.pi * 2.0)
  }

  // ----- Sierpinski triangle -----

  /** `opacity * (1 - depth / fractalIterations)`. */
  function LevelAlpha(pen: Pen, depth: nat): real
    requires depth < pen.iterations
  {
    pen.opacity * (1.0 - depth as real / pen.iterations as real)
  }

  /** `colors[depth % colors.length]`. */
  function LevelPaint(pen: Pen, depth: nat): Paint
    requires |pen.colors| > 0
  {
    Solid(pen.colors[depth % |pen.colors|])
  }

  /** The filled triangle of the call `drawTriangle(x, y, size, depth)`. */
  function Triangle(pen: Pen, x: real, y: real, size: real, depth: nat): Draw
    requires |pen.colors| > 0 && depth < pen.iterations
  {
    Filled([Move(Point(x, y - size / 2.0)), Line(Point(x - size / 2.0, y + size / 2.0)),
            Line(Point(x + size / 2.0, y + size / 2.0)), Close],
           LevelAlpha(pen, depth), LevelPaint(pen, depth), pen.shadow, pen.transform)
  }

  /**
   * Everything `drawTriangle(x, y, size, depth)` fills, in order: its own
   * triangle, then the top, left and right halves.
   */
  function SierpinskiDraws(pen: Pen, x: real, y: real, size: real, depth: nat): seq<Draw>
    requires |pen.colors| > 0
    decreases pen.iterations - depth
  {
    if depth >= pen.iterations || size < 2.0 then []
    else
      [Triangle(pen, x, y, size, depth)]
      + SierpinskiDraws(pen, x, y - size / 4.0, size / 2.0, depth + 1)
      + SierpinskiDraws(pen, x - size / 4.0, y + size / 4.0, size / 2.0, depth + 1)
      + SierpinskiDraws(pen, x + size / 4.0, y + size / 4.0, size / 2.0, depth + 1)
  }

  method DrawTriangleAt(ctx: Context, pen: Pen, x: real, y: real, size: real, depth: nat)
    requires pen.Valid() && pen.shadow == ctx.CurrentShadow() && pen.transform == ctx.transform
    modifies ctx`globalAlpha, ctx`fillStyle, ctx`path, ctx`drawn
    ensures ctx.drawn == old(ctx.drawn) + SierpinskiDraws(pen, x, y, size, depth)
    decreases pen.iterations - depth
  {
    if depth >= pen.iterations || size < 2.0 {
      return;
    }
    FillTriangle(ctx, pen, x, y, size, depth);
    var newSize := size / 2.0;
    DrawTriangleAt(ctx, pen, x, y - size / 4.0, newSize, depth + 1);
    DrawTriangleAt(ctx, pen, x - size / 4.0, y + size / 4.0, newSize, depth + 1);
    DrawTriangleAt(ctx, pen, x + size / 4.0, y + size / 4.0, newSize, depth + 1);
    SierpinskiUnfold(pen, x, y, size, depth, old(ctx.drawn), ctx.drawn);
  }

  /** The body of `drawTriangle` before the recursion: style, path, fill. */
  method FillTriangle(ctx: Context, pen: Pen, x: real, y: real, size: real, depth: nat)
    requires pen.Valid() && depth < pen.iterations
    requires pen.shadow == ctx.CurrentShadow() && pen.transform == ctx.transform
    modifies ctx`globalAlpha, ctx`fillStyle, ctx`path, ctx`drawn
    ensures ctx.drawn == old(ctx.drawn) + [Triangle(pen, x, y, size, depth)]
  {
    ctx.globalAlpha := LevelAlpha(pen, depth);
    ctx.fillStyle := LevelPaint(pen, depth);
    ctx.BeginPath();
    ctx.MoveTo(x, y - size / 2.0);
    ctx.LineTo(x - size / 2.0, y + size / 2.0);
    ctx.LineTo(x + size / 2.0, y + size / 2.0);
    ctx.ClosePath();
    ghost var t := Triangle(pen, x, y, size, depth);
    assert ctx.path == t.path;
    assert ctx.CurrentShadow() == t.shadow;
    assert ctx.globalAlpha == t.alpha && ctx.fillStyle == t.paint;
    ctx.Fill();
  }

  /** What one call and its three halves append is what `SierpinskiDraws` lists. */
  lemma SierpinskiUnfold(pen: Pen, x: real, y: real, size: real, depth: nat, d0: seq<Draw>, d: seq<Draw>)
    requires |pen.colors| > 0 && depth < pen.iterations && size >= 2.0
    requires d == d0 + [Triangle(pen, x, y, size, depth)]
      + SierpinskiDraws(pen, x, y - size / 4.0, size / 2.0, depth + 1)
      + SierpinskiDraws(pen, x - size / 4.0, y + size / 4.0, size / 2.0, depth + 1)
      + SierpinskiDraws(pen, x + size / 4.0, y + size / 4.0, size / 2.0, depth + 1)
    ensures d == d0 + SierpinskiDraws(pen, x, y, size, depth)
  {
    var top := SierpinskiDraws(pen, x, y - size / 4.0, size / 2.0, depth + 1);
    var left := SierpinskiDraws(pen, x - size / 4.0, y + size / 4.0, size / 2.0, depth + 1);
    var right := SierpinskiDraws(pen, x + size / 4.0, y + size / 4.0, size / 2.0, depth + 1);
    Concat4(d0, [Triangle(pen, x, y, size, depth)], top, left, right);
  }

  lemma AppendAssoc<T>(a: seq<T>, b: seq<T>, c: seq<T>)
    ensures a + b + c == a + (b + c)
  {
  }

  lemma Concat4<T>(s: seq<T>, a: seq<T>, b: seq<T>, c: seq<T>, d: seq<T>)
    ensures s + a + b + c + d == s + (a + b + c + d)
  {
  }

  /** The first call: a triangle of `0.6 * min(width, height)` centred a quarter size below the middle. */
  function SierpinskiFrame(pen: Pen, width: nat, height: nat): seq<Draw>
    requires |pen.colors| > 0
  {
    var size := MinReal(width as real, height as real) * 0.6;
    SierpinskiDraws(pen, width as real / 2.0, height as real / 2.0 + size / 4.0, size, 0)
  }

  method DrawSierpinskiTriangle(ctx: Context, g: Trig, time: real, p: ArtParameters)
    requires g.Valid()
    requires Constants.ResolvePalette(p.colorPalette).Some? && |Constants.ResolvePalette(p.colorPalette).value| > 0
    modifies ctx`globalAlpha, ctx`fillStyle, ctx`path, ctx`drawn
    ensures ctx.drawn == old(ctx.drawn) + SierpinskiFrame(
      MakePen(g, p, Constants.ResolvePalette(p.colorPalette).value, ctx.CurrentShadow(), ctx.transform),
      ctx.width, ctx.height)
  {
    var colors := Constants.ResolvePalette(p.colorPalette).value;
    var pen := MakePen(g, p, colors, ctx.CurrentShadow(), ctx.transform);
    var size := MinReal(ctx.width as real, ctx.height as real) * 0.6;
    var centerX := ctx.width as real / 2.0;
    var centerY := ctx.height as real / 2.0 + size / 4.0;
    DrawTriangleAt(ctx, pen, centerX, centerY, size, 0);
  }

  /** A triangle drawn at some level from `depth` up, in that level's alpha and colour. */
  ghost predicate DrawnAtLevel(pen: Pen, d: Draw, depth: nat)
    requires |pen.colors| > 0
  {
    d.Filled? &&
    exists level: nat {:trigger LevelAlpha(pen, level)} ::
      depth <= level < pen.iterations && d.alpha == LevelAlpha(pen, level) && d.paint == LevelPaint(pen, level)
  }

  /**
   * Every triangle is filled with the alpha and the palette colour of the
   * level it is drawn at, and no level reaches `fractalIterations`.
   */
  lemma {:induction false} SierpinskiLevels(pen: Pen, x: real, y: real, size: real, depth: nat)
    requires |pen.colors| > 0
    ensures forall d :: d in SierpinskiDraws(pen, x, y, size, depth) ==> DrawnAtLevel(pen, d, depth)
    decreases pen.iterations - depth
  {
    if depth < pen.iterations && size >= 2.0 {
      var t := Triangle(pen, x, y, size, depth);
      assert DrawnAtLevel(pen, t, depth) by {
        assert LevelAlpha(pen, depth) == t.alpha;
      }
      SierpinskiLevels(pen, x, y - size / 4.0, size / 2.0, depth + 1);
      SierpinskiLevels(pen, x - size / 4.0, y + size / 4.0, size / 2.0, depth + 1);
      SierpinskiLevels(pen, x + size / 4.0, y + size / 4.0, size / 2.0, depth + 1);
      forall d | d in SierpinskiDraws(pen, x, y, size, depth)
        ensures DrawnAtLevel(pen, d, depth)
      {
        if d != t {
          assert DrawnAtLevel(pen, d, depth + 1);
        }
      }
    }
  }

  lemma LevelAlphaRange(pen: Pen, level: nat)
    requires level < pen.iterations && pen.opacity > 0.0
    ensures 0.0 < LevelAlpha(pen, level) <= pen.opacity
  {
    var f := 1.0 - level as real / pen.iterations as real;
    assert 0.0 < f <= 1.0;
    assert pen.opacity - pen.opacity * f == pen.opacity * (1.0 - f);
  }

  /**
   * With a positive opacity every triangle's alpha lies in `(0, opacity]`,
   * and every triangle is filled with a colour of the palette.
   */
  lemma SierpinskiStyle(pen: Pen, x: real, y: real, size: real, depth: nat)
    requires |pen.colors| > 0
    ensures forall d :: d in SierpinskiDraws(pen, x, y, size, depth) ==>
      d.Filled? && d.paint.Solid? && d.paint.color in pen.colors
    ensures pen.opacity > 0.0 ==> forall d :: d in SierpinskiDraws(pen, x, y, size, depth) ==>
      0.0 < d.alpha <= pen.opacity
  {
    SierpinskiLevels(pen, x, y, size, depth);
    forall d | d in SierpinskiDraws(pen, x, y, size, depth)
      ensures d.Filled? && d.paint.Solid? && d.paint.color in pen.colors
      ensures pen.opacity > 0.0 ==> 0.0 < d.alpha <= pen.opacity
    {
      assert DrawnAtLevel(pen, d, depth);
      var level: nat :| depth <= level < pen.iterations && d.alpha == LevelAlpha(pen, level) && d.paint == LevelPaint(pen, level);
      if pen.opacity > 0.0 {
        LevelAlphaRange(pen, level);
      }
    }
  }

  /**
   * A call draws nothing exactly when `depth >= fractalIterations` or
   * `size < 2`; otherwise each level at most triples the count, so there are
   * at most `(3^(fractalIterations - depth) - 1) / 2` triangles.
   */
  lemma {:induction false} SierpinskiCount(pen: Pen, x: real, y: real, size: real, depth: nat)
    requires |pen.colors| > 0
    ensures |SierpinskiDraws(pen, x, y, size, depth)| == 0 <==> depth >= pen.iterations || size < 2.0
    ensures depth < pen.iterations ==>
      2 * |SierpinskiDraws(pen, x, y, size, depth)| + 1 <= Pow(3, pen.iterations - depth)
    decreases pen.iterations - depth
  {
    if depth < pen.iterations && size >= 2.0 {
      var n := pen.iterations - depth;
      var a := SierpinskiDraws(pen, x, y - size / 4.0, size / 2.0, depth + 1);
      var b := SierpinskiDraws(pen, x - size / 4.0, y + size / 4.0, size / 2.0, depth + 1);
      var c := SierpinskiDraws(pen, x + size / 4.0, y + size / 4.0, size / 2.0, depth + 1);
      assert SierpinskiDraws(pen, x, y, size, depth) == [Triangle(pen, x, y, size, depth)] + a + b + c;
      if depth + 1 < pen.iterations {
        SierpinskiCount(pen, x, y - size / 4.0, size / 2.0, depth + 1);
        SierpinskiCount(pen, x - size / 4.0, y + size / 4.0, size / 2.0, depth + 1);
        SierpinskiCount(pen, x + size / 4.0, y + size / 4.0, size / 2.0, depth + 1);
        var m := Pow(3, pen.iterations - (depth + 1));
        assert 2 * |a| + 1 <= m && 2 * |b| + 1 <= m && 2 * |c| + 1 <= m;
        assert Pow(3, n) == 3 * m;
      } else {
        assert a == [] && b == [] && c == [];
        assert Pow(3, n) == 3;
      }
    }
  }

  /** With one iteration a triangle of size at least 2 is a single filled triangle. */
  lemma SierpinskiOneLevel(pen: Pen, x: real, y: real, size: real)
    requires |pen.colors| > 0 && pen.iterations == 1 && size >= 2.0
    ensures SierpinskiDraws(pen, x, y, size, 0) == [Triangle(pen, x, y, size, 0)]
    ensures Triangle(pen, x, y, size, 0).alpha == pen.opacity
    ensures Triangle(pen, x, y, size, 0).paint == Solid(pen.colors[0])
  {
    assert SierpinskiDraws(pen, x, y - size / 4.0, size / 2.0, 1) == [];
    assert SierpinskiDraws(pen, x - size / 4.0, y + size / 4.0, size / 2.0, 1) == [];
    assert SierpinskiDraws(pen, x + size / 4.0, y + size / 4.0, size / 2.0, 1) == [];
  }

  // ----- segments shared by the Koch and dragon curves -----

  /** One leaf of a line fractal: a straight stroke from `from` to `to`. */
  datatype Segment = Segment(from: Point, to: Point)

  /** Segment `j` ends where segment `j + 1` starts. */
  predicate Joined(segs: seq<Segment>, j: int)
    requires 0 <= j < |segs| - 1
  {
    segs[j].to == segs[j + 1].from
  }

  /** The segments join end to start, from `a` to `b`. */
  predicate Chain(segs: seq<Segment>, a: Point, b: Point) {
    |segs| > 0 && segs[0].from == a && segs[|segs| - 1].to == b &&
    forall j :: 0 <= j < |segs| - 1 ==> Joined(segs, j)
  }

  lemma ChainAppend(s: seq<Segment>, t: seq<Segment>, a: Point, b: Point, c: Point)
    requires Chain(s, a, b) && Chain(t, b, c)
    ensures Chain(s + t, a, c)
  {
    var u := s + t;
    forall j | 0 <= j < |u| - 1
      ensures Joined(u, j)
    {
      if j < |s| - 1 {
        assert Joined(s, j);
        assert u[j] == s[j] && u[j + 1] == s[j + 1];
      } else if j == |s| - 1 {
        assert u[j] == s[|s| - 1] && u[j + 1] == t[0];
      } else {
        assert Joined(t, j - |s|);
        assert u[j] == t[j - |s|] && u[j + 1] == t[j - |s| + 1];
      }
    }
  }

  /**
   * A leaf as drawn: alpha `opacity`, stroke colour `colors[0 % length]`,
   * the given line width, a path from one end to the other.
   */
  function Stroke(pen: Pen, width: real, s: Segment): Draw
    requires |pen.colors| > 0
  {
    Stroked([Move(s.from), Line(s.to)], pen.opacity, Solid(pen.colors[0 % |pen.colors|]), width,
            pen.shadow, pen.transform)
  }

  function Strokes(pen: Pen, width: real, segs: seq<Segment>): (r: seq<Draw>)
    requires |pen.colors| > 0
    ensures |r| == |segs|
    ensures forall j :: 0 <= j < |segs| ==> r[j] == Stroke(pen, width, segs[j])
  {
    seq(|segs|, j requires 0 <= j < |segs| => Stroke(pen, width, segs[j]))
  }

  lemma StrokesAppend(pen: Pen, width: real, s: seq<Segment>, t: seq<Segment>)
    requires |pen.colors| > 0
    ensures Strokes(pen, width, s + t) == Strokes(pen, width, s) + Strokes(pen, width, t)
  {
    var u := s + t;
    forall j | 0 <= j < |u|
      ensures Strokes(pen, width, u)[j] == (Strokes(pen, width, s) + Strokes(pen, width, t))[j]
    {
      if j < |s| {
        assert u[j] == s[j];
      } else {
        assert u[j] == t[j - |s|];
      }
    }
  }

  // ----- Koch snowflake -----

  /** The third point, the apex and the two-thirds point of `kochCurve` between `a` and `b`. */
  function KochPoints(g: Trig, a: Point, b: Point): (Point, Point, Point) {
    var dx := b.x - a.x;
    var dy := b.y - a.y;
    var p3 := Point(a.x + dx / 3.0, a.y + dy / 3.0);
    var p4 := Point(a.x + (2.0 * dx) / 3.0, a.y + (2.0 * dy) / 3.0);
    var angle := g.atan2(dy, dx) - g.pi / 3.0;
    var length := g.sqrt(dx * dx + dy * dy) / 3.0;
    var p5 := Point(p3.x + g.cos(angle) * length, p3.y + g.sin(angle) * length);
    (p3, p5, p4)
  }

  /** The leaves of `kochCurve(a, b, depth)`, in drawing order. */
  function KochLeaves(g: Trig, a: Point, b: Point, depth: nat): (r: seq<Segment>)
    ensures |r| == Pow(4, depth)
    decreases depth
  {
    if depth == 0 then [Segment(a, b)]
    else
      var pts := KochPoints(g, a, b);
      KochLeaves(g, a, pts.0, depth - 1) + KochLeaves(g, pts.0, pts.1, depth - 1)
      + KochLeaves(g, pts.1, pts.2, depth - 1) + KochLeaves(g, pts.2, b, depth - 1)
  }

  /**
   * The base case shared by kochCurve and dragonCurve: at depth 0 one segment
   * is stroked in the palette's colour `depth % length`, that is its first.
   */
  method StrokeSegment(ctx: Context, pen: Pen, from: Point, to: Point, width: real)
    requires pen.Valid() && pen.shadow == ctx.CurrentShadow() && pen.transform == ctx.transform
    modifies ctx`globalAlpha, ctx`strokeStyle, ctx`lineWidth, ctx`path, ctx`drawn
    ensures ctx.drawn == old(ctx.drawn) + [Stroke(pen, width, Segment(from, to))]
  {
    ctx.globalAlpha := pen.opacity;
    ctx.strokeStyle := Solid(pen.colors[0 % |pen.colors|]);
    ctx.lineWidth := width;
    ctx.BeginPath();
    ctx.MoveTo(from.x, from.y);
    ctx.LineTo(to.x, to.y);
    assert ctx.path == [Move(from), Line(to)];
    assert ctx.strokeStyle == Solid(pen.colors[0 % |pen.colors|]) && ctx.globalAlpha == pen.opacity;
    ctx.Stroke();
  }

  /** The strokes of a Koch curve of positive depth are those of its four quarter curves. */
  lemma KochStrokes(pen: Pen, a: Point, b: Point, depth: nat)
    requires |pen.colors| > 0 && depth > 0
    ensures var pts := KochPoints(pen.trig, a, b);
      Strokes(pen, 2.0, KochLeaves(pen.trig, a, b, depth))
      == Strokes(pen, 2.0, KochLeaves(pen.trig, a, pts.0, depth - 1))
      + Strokes(pen, 2.0, KochLeaves(pen.trig, pts.0, pts.1, depth - 1))
      + Strokes(pen, 2.0, KochLeaves(pen.trig, pts.1, pts.2, depth - 1))
      + Strokes(pen, 2.0, KochLeaves(pen.trig, pts.2, b, depth - 1))
  {
    var pts := KochPoints(pen.trig, a, b);
    var l1, l2 := KochLeaves(pen.trig, a, pts.0, depth - 1), KochLeaves(pen.trig, pts.0, pts.1, depth - 1);
    var l3, l4 := KochLeaves(pen.trig, pts.1, pts.2, depth - 1), KochLeaves(pen.trig, pts.2, b, depth - 1);
    assert KochLeaves(pen.trig, a, b, depth) == l1 + l2 + l3 + l4;
    StrokesAppend(pen, 2.0, l1 + l2 + l3, l4);
    StrokesAppend(pen, 2.0, l1 + l2, l3);
    StrokesAppend(pen, 2.0, l1, l2);
  }

  /** What `kochCurve(a, b, depth)` strokes, in the order of its recursive calls. */
  function KochDraws(pen: Pen, a: Point, b: Point, depth: nat): seq<Draw>
    requires |pen.colors| > 0
    decreases depth
  {
    if depth == 0 then [Stroke(pen, 2.0, Segment(a, b))]
    else
      var pts := KochPoints(pen.trig, a, b);
      KochDraws(pen, a, pts.0, depth - 1) + KochDraws(pen, pts.0, pts.1, depth - 1)
      + KochDraws(pen, pts.1, pts.2, depth - 1) + KochDraws(pen, pts.2, b, depth - 1)
  }

  /** The recursion strokes the leaves of the curve, one stroke per leaf. */
  lemma {:induction false} KochDrawsAreStrokes(pen: Pen, a: Point, b: Point, depth: nat)
    requires |pen.colors| > 0
    ensures KochDraws(pen, a, b, depth) == Strokes(pen, 2.0, KochLeaves(pen.trig, a, b, depth))
    decreases depth
  {
    if depth == 0 {
      KochLeafStroke(pen, a, b);
    } else {
      var pts := KochPoints(pen.trig, a, b);
      var q0, q1, q2 := pts.0, pts.1, pts.2;
      var d := depth - 1;
      var k1, k2, k3, k4 := KochDraws(pen, a, q0, d), KochDraws(pen, q0, q1, d),
                            KochDraws(pen, q1, q2, d), KochDraws(pen, q2, b, d);
      var s1, s2 := Strokes(pen, 2.0, KochLeaves(pen.trig, a, q0, d)), Strokes(pen, 2.0, KochLeaves(pen.trig, q0, q1, d));
      var s3, s4 := Strokes(pen, 2.0, KochLeaves(pen.trig, q1, q2, d)), Strokes(pen, 2.0, KochLeaves(pen.trig, q2, b, d));
      KochDrawsAreStrokes(pen, a, q0, d);
      assert k1 == s1;
      KochDrawsAreStrokes(pen, q0, q1, d);
      assert k2 == s2;
      KochDrawsAreStrokes(pen, q1, q2, d);
      assert k3 == s3;
      KochDrawsAreStrokes(pen, q2, b, d);
      assert k4 == s4;
      Replace4(k1, k2, k3, k4, s1, s2, s3, s4);
      assert KochDraws(pen, a, b, depth) == k1 + k2 + k3 + k4;
      KochStrokes(pen, a, b, depth);
    }
  }

  lemma Replace4<T>(k1: seq<T>, k2: seq<T>, k3: seq<T>, k4: seq<T>, s1: seq<T>, s2: seq<T>, s3: seq<T>, s4: seq<T>)
    requires k1 == s1 && k2 == s2 && k3 == s3 && k4 == s4
    ensures k1 + k2 + k3 + k4 == s1 + s2 + s3 + s4
  {
  }

  lemma KochLeafStroke(pen: Pen, a: Point, b: Point)
    requires |pen.colors| > 0
    ensures KochDraws(pen, a, b, 0) == Strokes(pen, 2.0, KochLeaves(pen.trig, a, b, 0))
  {
    assert KochLeaves(pen.trig, a, b, 0) == [Segment(a, b)];
    assert Strokes(pen, 2.0, [Segment(a, b)]) == [Stroke(pen, 2.0, Segment(a, b))];
  }

  method KochCurve(ctx: Context, pen: Pen, a: Point, b: Point, depth: nat)
    requires pen.Valid() && pen.shadow == ctx.CurrentShadow() && pen.transform == ctx.transform
    modifies ctx`globalAlpha, ctx`strokeStyle, ctx`lineWidth, ctx`path, ctx`drawn
    ensures ctx.drawn == old(ctx.drawn) + KochDraws(pen, a, b, depth)
    decreases depth
  {
    if depth == 0 {
      StrokeSegment(ctx, pen, a, b, 2.0);
      return;
    }
    ghost var d0 := ctx.drawn;
    var pts := KochPoints(pen.trig, a, b);
    var p3, p5, p4 := pts.0, pts.1, pts.2;
    KochCurve(ctx, pen, a, p3, depth - 1);
    KochCurve(ctx, pen, p3, p5, depth - 1);
    KochCurve(ctx, pen, p5, p4, depth - 1);
    KochCurve(ctx, pen, p4, b, depth - 1);
    Concat4(d0, KochDraws(pen, a, p3, depth - 1), KochDraws(pen, p3, p5, depth - 1),
            KochDraws(pen, p5, p4, depth - 1), KochDraws(pen, p4, b, depth - 1));
  }

  /** Whatever the apex, the leaves of a Koch curve join end to start from `a` to `b`. */
  lemma {:induction false} KochChain(g: Trig, a: Point, b: Point, depth: nat)
    ensures Chain(KochLeaves(g, a, b, depth), a, b)
    decreases depth
  {
    if depth > 0 {
      var pts := KochPoints(g, a, b);
      var l1, l2 := KochLeaves(g, a, pts.0, depth - 1), KochLeaves(g, pts.0, pts.1, depth - 1);
      var l3, l4 := KochLeaves(g, pts.1, pts.2, depth - 1), KochLeaves(g, pts.2, b, depth - 1);
      assert KochLeaves(g, a, b, depth) == l1 + l2 + l3 + l4;
      KochChain(g, a, pts.0, depth - 1);
      KochChain(g, pts.0, pts.1, depth - 1);
      KochChain(g, pts.1, pts.2, depth - 1);
      KochChain(g, pts.2, b, depth - 1);
      ChainAppend(l1, l2, a, pts.0, pts.1);
      ChainAppend(l1 + l2, l3, a, pts.1, pts.2);
      ChainAppend(l1 + l2 + l3, l4, a, pts.2, b);
    }
  }

  /** `angle + (i * π * 2) / 3`, the starting angle of side `i`. */
  function SideAngle(g: Trig, angle: real, i: nat): real {
    angle + (i as real * g.pi * 2.0) / 3.0
  }

  /** The corner of the snowflake at the start of side `i`. */
  function Corner(g: Trig, center: Point, size: real, angle: real, i: nat): Point {
    g.Polar(center, SideAngle(g, angle, i), size)
  }

  /** `(π * 2) / 3`, a third of a turn. */
  function Third(g: Trig): real {
    (g.pi * 2.0) / 3.0
  }

  /** Where side `i` ends: a third of a turn past its corner. */
  function SideEnd(g: Trig, center: Point, size: real, angle: real, i: nat): Point {
    g.Polar(center, SideAngle(g, angle, i) + Third(g), size)
  }

  /** Side `i`: a Koch curve from its corner to its end. */
  function Side(g: Trig, center: Point, size: real, angle: real, depth: nat, i: nat): seq<Segment> {
    KochLeaves(g, Corner(g, center, size, angle, i), SideEnd(g, center, size, angle, i), depth)
  }

  lemma SideFrom(g: Trig, center: Point, size: real, angle: real, depth: nat, i: nat) returns (side: seq<Segment>)
    ensures side == Side(g, center, size, angle, depth, i)
    ensures side == KochLeaves(g, Corner(g, center, size, angle, i), SideEnd(g, center, size, angle, i), depth)
  {
    side := Side(g, center, size, angle, depth, i);
  }

  /** The leaves of the first `n` sides of the snowflake. */
  function SnowflakeLeaves(g: Trig, center: Point, size: real, angle: real, depth: nat, n: nat): seq<Segment> {
    if n == 0 then []
    else SnowflakeLeaves(g, center, size, angle, depth, n - 1) + Side(g, center, size, angle, depth, n - 1)
  }

  lemma SnowflakeStep(g: Trig, center: Point, size: real, angle: real, depth: nat, i: nat)
    ensures SnowflakeLeaves(g, center, size, angle, depth, i + 1)
         == SnowflakeLeaves(g, center, size, angle, depth, i) + Side(g, center, size, angle, depth, i)
  {
  }

  /** `min(width, height) * 0.3`, the size of both the snowflake and the dragon. */
  function CurveSize(width: nat, height: nat): real {
    MinReal(width as real, height as real) * 0.3
  }

  function Middle(width: nat, height: nat): Point {
    Point(width as real / 2.0, height as real / 2.0)
  }

  method DrawKochSnowflake(ctx: Context, g: Trig, time: real, p: ArtParameters)
    requires g.Valid() && p.fractalIterations >= 0
    requires Constants.ResolvePalette(p.colorPalette).Some? && |Constants.ResolvePalette(p.colorPalette).value| > 0
    modifies ctx`globalAlpha, ctx`strokeStyle, ctx`lineWidth, ctx`path, ctx`drawn
    ensures var pen := MakePen(g, p, Constants.ResolvePalette(p.colorPalette).value, ctx.CurrentShadow(), ctx.transform);
      ctx.drawn == old(ctx.drawn) + Strokes(pen, 2.0, SnowflakeLeaves(
        g, Middle(ctx.width, ctx.height), CurveSize(ctx.width, ctx.height), StartAngle(g, time),
        MinInt(p.fractalIterations, 5), 3))
  {
    var colors := Constants.ResolvePalette(p.colorPalette).value;
    var pen := MakePen(g, p, colors, ctx.CurrentShadow(), ctx.transform);
    var size := CurveSize(ctx.width, ctx.height);
    var center := Middle(ctx.width, ctx.height);
    var angle := StartAngle(g, time);
    DrawSides(ctx, pen, center, size, angle, MinInt(p.fractalIterations, 5));
  }

  /** The loop over the three sides. */
  method DrawSides(ctx: Context, pen: Pen, center: Point, size: real, angle: real, depth: nat)
    requires pen.Valid() && pen.shadow == ctx.CurrentShadow() && pen.transform == ctx.transform
    modifies ctx`globalAlpha, ctx`strokeStyle, ctx`lineWidth, ctx`path, ctx`drawn
    ensures ctx.drawn == old(ctx.drawn) + Strokes(pen, 2.0, SnowflakeLeaves(pen.trig, center, size, angle, depth, 3))
  {
    var g := pen.trig;
    var i := 0;
    while i < 3
      invariant 0 <= i <= 3
      invariant pen.shadow == ctx.CurrentShadow() && pen.transform == ctx.transform
      invariant ctx.drawn == old(ctx.drawn) + Strokes(pen, 2.0, SnowflakeLeaves(g, center, size, angle, depth, i))
    {
      var p1 := Corner(g, center, size, angle, i);
      var p2 := SideEnd(g, center, size, angle, i);
      ghost var before := ctx.drawn;
      KochCurve(ctx, pen, p1, p2, depth);
      KochDrawsAreStrokes(pen, p1, p2, depth);
      NextSide(pen, center, size, angle, depth, i, old(ctx.drawn), before, ctx.drawn);
      i := i + 1;
    }
  }

  /** Drawing side `i` after the first `i` sides has drawn the first `i + 1`. */
  lemma NextSide(pen: Pen, center: Point, size: real, angle: real, depth: nat, i: nat,
                 d0: seq<Draw>, before: seq<Draw>, after: seq<Draw>)
    requires |pen.colors| > 0
    requires before == d0 + Strokes(pen, 2.0, SnowflakeLeaves(pen.trig, center, size, angle, depth, i))
    requires after == before + Strokes(pen, 2.0, KochLeaves(pen.trig, Corner(pen.trig, center, size, angle, i),
                                                            SideEnd(pen.trig, center, size, angle, i), depth))
    ensures after == d0 + Strokes(pen, 2.0, SnowflakeLeaves(pen.trig, center, size, angle, depth, i + 1))
  {
    var g := pen.trig;
    var done := SnowflakeLeaves(g, center, size, angle, depth, i);
    var side := SideFrom(g, center, size, angle, depth, i);
    SnowflakeStep(g, center, size, angle, depth, i);
    StrokesAppend(pen, 2.0, done, side);
    AppendAssoc(d0, Strokes(pen, 2.0, done), Strokes(pen, 2.0, side));
  }

  /** Side `i` ends where side `i + 1` starts. */
  lemma SidesMeet(g: Trig, angle: real, i: nat)
    ensures SideAngle(g, angle, i) + Third(g) == SideAngle(g, angle, i + 1)
  {
    assert (i + 1) as real * g.pi == i as real * g.pi + g.pi;
  }

  /**
   * The three sides make one contiguous outline of `3 * 4^depth` leaves in
   * the first palette colour, from the point at the starting angle round to
   * the point a full turn later.
   */
  lemma SnowflakeOutline(g: Trig, center: Point, size: real, angle: real, depth: nat)
    ensures var leaves := SnowflakeLeaves(g, center, size, angle, depth, 3);
      && |leaves| == 3 * Pow(4, depth)
      && Chain(leaves, Corner(g, center, size, angle, 0), Corner(g, center, size, angle, 3))
  {
    SnowflakeCount(g, center, size, angle, depth);
    var s2 := FirstTwoSides(g, center, size, angle, depth);
    var k2 := SideJoins(g, center, size, angle, depth, 2);
    SnowflakeStep(g, center, size, angle, depth, 2);
    ChainAppend(s2, k2, Corner(g, center, size, angle, 0), Corner(g, center, size, angle, 2), Corner(g, center, size, angle, 3));
  }

  lemma SnowflakeCount(g: Trig, center: Point, size: real, angle: real, depth: nat)
    ensures |SnowflakeLeaves(g, center, size, angle, depth, 3)| == 3 * Pow(4, depth)
  {
    assert SnowflakeLeaves(g, center, size, angle, depth, 0) == [];
    SnowflakeStep(g, center, size, angle, depth, 0);
    SnowflakeStep(g, center, size, angle, depth, 1);
    SnowflakeStep(g, center, size, angle, depth, 2);
  }

  lemma FirstTwoSides(g: Trig, center: Point, size: real, angle: real, depth: nat) returns (s2: seq<Segment>)
    ensures s2 == SnowflakeLeaves(g, center, size, angle, depth, 2)
    ensures Chain(s2, Corner(g, center, size, angle, 0), Corner(g, center, size, angle, 2))
  {
    var k0 := SideJoins(g, center, size, angle, depth, 0);
    var k1 := SideJoins(g, center, size, angle, depth, 1);
    var s1 := SnowflakeLeaves(g, center, size, angle, depth, 1);
    SnowflakeStep(g, center, size, angle, depth, 0);
    assert s1 == k0 by {
      assert SnowflakeLeaves(g, center, size, angle, depth, 0) == [];
    }
    SnowflakeStep(g, center, size, angle, depth, 1);
    ChainAppend(s1, k1, Corner(g, center, size, angle, 0), Corner(g, center, size, angle, 1), Corner(g, center, size, angle, 2));
    s2 := SnowflakeLeaves(g, center, size, angle, depth, 2);
  }

  /** Side `i` runs from corner `i` to corner `i + 1`. */
  lemma SideJoins(g: Trig, center: Point, size: real, angle: real, depth: nat, i: nat) returns (side: seq<Segment>)
    ensures side == Side(g, center, size, angle, depth, i)
    ensures Chain(side, Corner(g, center, size, angle, i), Corner(g, center, size, angle, i + 1))
  {
    SidesMeet(g, angle, i);
    KochChain(g, Corner(g, center, size, angle, i), SideEnd(g, center, size, angle, i), depth);
    side := Side(g, center, size, angle, depth, i);
  }

  // ----- dragon curve -----

  /** `(π / 4) * direction`, the turn between a dragon call and its halves. */
  function Quarter(g: Trig, direction: real): real {
    (g.pi / 4.0) * direction
  }

  /** `length / √2`, the length of each half. */
  function DragonLength(g: Trig, length: real): real
    requires g.Valid()
  {
    length / g.sqrt(2.0)
  }

  /** The point `dragonCurve(start, length, angle, depth, direction)` returns. */
  function DragonEnd(g: Trig, start: Point, length: real, angle: real, depth: nat, direction: real): Point
    requires g.Valid()
    decreases depth
  {
    if depth == 0 then g.Polar(start, angle, length)
    else
      var l := DragonLength(g, length);
      var mid := DragonEnd(g, start, l, angle - Quarter(g, direction), depth - 1, 1.0);
      DragonEnd(g, mid, l, angle + Quarter(g, direction), depth - 1, -1.0)
  }

  /**
   * The leaves of that call, in drawing order: the first half turned by
   * `-π/4 · direction` with direction 1, then, from where it ends, the second
   * half turned by `+π/4 · direction` with direction -1.
   */
  function DragonLeaves(g: Trig, start: Point, length: real, angle: real, depth: nat, direction: real): seq<Segment>
    requires g.Valid()
    decreases depth
  {
    if depth == 0 then [Segment(start, g.Polar(start, angle, length))]
    else
      var l := DragonLength(g, length);
      var a1 := angle - Quarter(g, direction);
      var mid := DragonEnd(g, start, l, a1, depth - 1, 1.0);
      DragonLeaves(g, start, l, a1, depth - 1, 1.0)
      + DragonLeaves(g, mid, l, angle + Quarter(g, direction), depth - 1, -1.0)
  }

  method DragonCurve(ctx: Context, pen: Pen, start: Point, length: real, angle: real, depth: nat, direction: real)
    returns (end: Point)
    requires pen.Valid() && pen.shadow == ctx.CurrentShadow() && pen.transform == ctx.transform
    modifies ctx`globalAlpha, ctx`strokeStyle, ctx`lineWidth, ctx`path, ctx`drawn
    ensures end == DragonEnd(pen.trig, start, length, angle, depth, direction)
    ensures ctx.drawn == old(ctx.drawn) + Strokes(pen, 3.0, DragonLeaves(pen.trig, start, length, angle, depth, direction))
    decreases depth
  {
    if depth == 0 {
      var endX := start.x + pen.trig.cos(angle) * length;
      var endY := start.y + pen.trig.sin(angle) * length;
      end := Point(endX, endY);
      StrokeSegment(ctx, pen, start, end, 3.0);
      assert Strokes(pen, 3.0, [Segment(start, end)]) == [Stroke(pen, 3.0, Segment(start, end))];
      return;
    }
    var newLength := DragonLength(pen.trig, length);
    var newAngle1 := angle - Quarter(pen.trig, direction);
    var newAngle2 := angle + Quarter(pen.trig, direction);
    var mid := DragonCurve(ctx, pen, start, newLength, newAngle1, depth - 1, 1.0);
    end := DragonCurve(ctx, pen, mid, newLength, newAngle2, depth - 1, -1.0);
    ghost var first := DragonLeaves(pen.trig, start, newLength, newAngle1, depth - 1, 1.0);
    ghost var second := DragonLeaves(pen.trig, mid, newLength, newAngle2, depth - 1, -1.0);
    ghost var whole := DragonLeaves(pen.trig, start, length, angle, depth, direction);
    assert whole == first + second;
    ghost var e := DragonEnd(pen.trig, start, length, angle, depth, direction);
    assert e == DragonEnd(pen.trig, mid, newLength, newAngle2, depth - 1, -1.0);
    StrokesAppend(pen, 3.0, first, second);
    AppendAssoc(old(ctx.drawn), Strokes(pen, 3.0, first), Strokes(pen, 3.0, second));
  }

  /** The dragon starts half its size left of the middle. */
  function DragonStart(width: nat, height: nat): Point {
    Point(width as real / 2.0 - CurveSize(width, height) / 2.0, height as real / 2.0)
  }

  method DrawDragonCurve(ctx: Context, g: Trig, time: real, p: ArtParameters)
    requires g.Valid() && p.fractalIterations >= 0
    requires Constants.ResolvePalette(p.colorPalette).Some? && |Constants.ResolvePalette(p.colorPalette).value| > 0
    modifies ctx`globalAlpha, ctx`strokeStyle, ctx`lineWidth, ctx`path, ctx`drawn
    ensures var pen := MakePen(g, p, Constants.ResolvePalette(p.colorPalette).value, ctx.CurrentShadow(), ctx.transform);
      ctx.drawn == old(ctx.drawn) + Strokes(pen, 3.0, DragonLeaves(
        g, DragonStart(ctx.width, ctx.height), CurveSize(ctx.width, ctx.height),
        StartAngle(g, time), MinInt(p.fractalIterations, 12), 1.0))
  {
    var colors := Constants.ResolvePalette(p.colorPalette).value;
    var pen := MakePen(g, p, colors, ctx.CurrentShadow(), ctx.transform);
    var size := CurveSize(ctx.width, ctx.height);
    var start := DragonStart(ctx.width, ctx.height);
    var angle := StartAngle(g, time);
    var _ := DragonCurve(ctx, pen, start, size, angle, MinInt(p.fractalIterations, 12), 1.0);
  }

  /**
   * The dragon's `2^depth` leaves join end to start, from the starting point
   * to the point the call returns.
   */
  lemma {:induction false} DragonChain(g: Trig, start: Point, length: real, angle: real, depth: nat, direction: real)
    requires g.Valid()
    ensures Chain(DragonLeaves(g, start, length, angle, depth, direction), start, DragonEnd(g, start, length, angle, depth, direction))
    ensures |DragonLeaves(g, start, length, angle, depth, direction)| == Pow(2, depth)
    decreases depth
  {
    if depth > 0 {
      var l := DragonLength(g, length);
      var a1 := angle - Quarter(g, direction);
      var a2 := angle + Quarter(g, direction);
      var mid := DragonEnd(g, start, l, a1, depth - 1, 1.0);
      DragonChain(g, start, l, a1, depth - 1, 1.0);
      DragonChain(g, mid, l, a2, depth - 1, -1.0);
      var first, second := DragonLeaves(g, start, l, a1, depth - 1, 1.0), DragonLeaves(g, mid, l, a2, depth - 1, -1.0);
      var leaves := DragonLeaves(g, start, length, angle, depth, direction);
      assert leaves == first + second;
      var e := DragonEnd(g, start, length, angle, depth, direction);
      assert e == DragonEnd(g, mid, l, a2, depth - 1, -1.0);
      ChainAppend(first, second, start, mid, e);
    }
  }
}
