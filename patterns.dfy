/**
 * The five shape renderers (lib/patterns.ts). Each is a loop over
 * `shapeCount` that sets the style, builds one path and draws it; the
 * per-shape geometry is a pure function of the scene and the shape index.
 */
module Patterns {
  import opened Types
  import opened Canvas
  import JsString
  import Constants

  /**
   * The star renderer's `colorPalettes[sel]` without the array test: an array
   * used as a key becomes its comma-joined text, `undefined` becomes "undefined".
   */
  function StarPalette(sel: PaletteSel): (r: Option<seq<string>>)
    ensures sel.Named? ==> r == Constants.ResolvePalette(sel)
  {
    match sel
    case Named(k) => Constants.PaletteNamed(k)
    case Literal(cs) => Constants.PaletteNamed(JsString.Join(cs, ","))
    case Undefined => Constants.PaletteNamed("undefined")
  }

  /** A literal palette of colour strings is never accepted by the star renderer. */
  lemma StarRejectsColorLiterals(cs: seq<string>)
    requires cs != [] && cs[0] != [] && cs[0][0] == '#'
    ensures StarPalette(Literal(cs)).None?
  {
    JsString.JoinStartsWith(cs, ",", '#');
    var key := JsString.Join(cs, ",");
    forall i | 0 <= i < |Constants.PaletteKeyNames|
      ensures key != Constants.PaletteKeyNames[i]
    {
      assert key[0] == '#';
    }
  }

  /** `audioReactive ? 1 + volume : 1`. */
  function VolumeFactor(p: ArtParameters, audio: AudioData): (f: real)
    ensures !p.audioReactive ==> f == 1.0
    ensures p.audioReactive && audio.volume >= 0.0 ==> f >= 1.0
  {
    if p.audioReactive then 1.0 + audio.volume else 1.0
  }

  /** `audioReactive ? floor(frequency * L) : 0`. */
  function ColorOffset(p: ArtParameters, audio: AudioData, paletteLength: nat): (off: int)
    requires p.audioReactive ==> audio.frequency >= 0.0
    ensures off >= 0
    ensures !p.audioReactive ==> off == 0
    ensures p.audioReactive && audio.frequency < 1.0 && paletteLength > 0 ==> off < paletteLength
  {
    if p.audioReactive then
      var x := audio.frequency * paletteLength as real;
      assert audio.frequency < 1.0 && paletteLength > 0 ==> x < paletteLength as real by {
        if audio.frequency < 1.0 && paletteLength > 0 {
          ScaleBelow(audio.frequency, paletteLength as real);
        }
      }
      x.Floor
    else 0
  }

  lemma ScaleBelow(f: real, n: real)
    requires 0.0 <= f < 1.0 && n > 0.0
    ensures f * n < n
  {
    assert n - f * n == (1.0 - f) * n;
  }

  /** The colour index of a shape; always a valid index into the palette. */
  function PaletteIndex(i: nat, offset: int, paletteLength: nat): (k: nat)
    requires offset >= 0 && paletteLength > 0
    ensures k < paletteLength
    ensures offset == 0 && i < paletteLength ==> k == i
  {
    (i + offset) % paletteLength
  }

  /**
   * Everything a frame of shapes reads, fixed before the first shape is
   * drawn: the canvas size, the time, the shape fields of the parameters, the
   * palette, the two audio factors and the context's shadow and transform.
   */
  datatype Scene = Scene(
    trig: Trig, width: real, height: real, time: real,
    count: int, size: real, animationSpeed: real, rotationSpeed: real, opacity: real, complexity: real,
    colors: seq<string>, volumeFactor: real, colorOffset: int,
    shadow: Shadow, transform: seq<Transform>)
  {
    predicate Valid() {
      |colors| > 0 && colorOffset >= 0
    }
  }

  function MakeScene(
    g: Trig, width: nat, height: nat, time: real, p: ArtParameters, audio: AudioData,
    colors: seq<string>, shadow: Shadow, transform: seq<Transform>): (sc: Scene)
    requires p.audioReactive ==> audio.frequency >= 0.0
    ensures sc.colorOffset >= 0
    ensures !p.audioReactive ==> sc.volumeFactor == 1.0 && sc.colorOffset == 0
  {
    Scene(g, width as real, height as real, time,
          p.shapeCount, p.shapeSize, p.animationSpeed, p.rotationSpeed, p.opacity, p.complexity, colors,
          VolumeFactor(p, audio), ColorOffset(p, audio, |colors|), shadow, transform)
  }

  /** The number of times `for (let i = 0; i < shapeCount; i++)` runs. */
  function Count(shapeCount: int): nat {
    if shapeCount > 0 then shapeCount else 0
  }

  function Min(a: real, b: real): real {
    if a <= b then a else b
  }

  datatype Shape = Circles | Triangles | Lines | Spiral | Stars

  // ----- per-shape formulas -----

  /** `(i / shapeCount) * PI * 2 * complexity + time * animationSpeed * 0.01`. */
  function Angle(sc: Scene, i: nat): real
    requires sc.Valid() && i < sc.count
  {
    (i as real / sc.count as real) * sc.trig.pi * 2.0 * sc.complexity
      + sc.time * sc.animationSpeed * 0.01
  }

  function ShapeColor(sc: Scene, i: nat): Paint
    requires sc.Valid() && i < sc.count
  {
    Solid(sc.colors[PaletteIndex(i, sc.colorOffset, |sc.colors|)])
  }

  /** The pulsing size `shapeSize * (0.5 + sin(time * 0.01 + i) * 0.5) * volumeFactor`. */
  function PulseSize(sc: Scene, i: nat): real {
    sc.size * (0.5 + sc.trig.sin(sc.time * 0.01 + i as real) * 0.5) * sc.volumeFactor
  }

  function CircleCenter(sc: Scene, i: nat): Point
    requires sc.Valid() && i < sc.count
  {
    var g := sc.trig;
    var angle := Angle(sc, i);
    var radius := Min(sc.width, sc.height) * 0.3 * sc.volumeFactor;
    Point(sc.width / 2.0 + g.cos(angle) * radius * (0.5 + g.sin(sc.time * sc.rotationSpeed * 0.005 + i as real) * 0.3),
          sc.height / 2.0 + g.sin(angle) * radius * (0.5 + g.cos(sc.time * sc.rotationSpeed * 0.005 + i as real) * 0.3))
  }

  function TriangleCenter(sc: Scene, i: nat): Point
    requires sc.Valid() && i < sc.count
  {
    var radius := Min(sc.width, sc.height) * 0.25 * sc.volumeFactor;
    sc.trig.Polar(Point(sc.width / 2.0, sc.height / 2.0), Angle(sc, i), radius)
  }

  /** The equilateral triangle of half-height `size`, in its own frame. */
  function TrianglePath(size: real): seq<PathOp> {
    [Move(Point(0.0, -size)), Line(Point(-size * 0.866, size * 0.5)), Line(Point(size * 0.866, size * 0.5)), Close]
  }

  function LineStart(sc: Scene, i: nat): Point
    requires sc.Valid() && i < sc.count
  {
    sc.trig.Polar(Point(sc.width / 2.0, sc.height / 2.0), Angle(sc, i), 50.0 * sc.volumeFactor)
  }

  function LineEnd(sc: Scene, i: nat): Point
    requires sc.Valid() && i < sc.count
  {
    sc.trig.Polar(Point(sc.width / 2.0, sc.height / 2.0),
                  Angle(sc, i) + sc.time * sc.rotationSpeed * 0.005,
                  Min(sc.width, sc.height) * 0.4 * sc.volumeFactor)
  }

  function SpiralCenter(sc: Scene, i: nat): Point
    requires sc.Valid() && i < sc.count
  {
    var t := (i as real / sc.count as real) * sc.complexity * sc.trig.pi * 2.0
      + sc.time * sc.animationSpeed * 0.01;
    var radius := (i as real / sc.count as real) * Min(sc.width, sc.height) * 0.4 * sc.volumeFactor;
    sc.trig.Polar(Point(sc.width / 2.0, sc.height / 2.0), t + sc.time * sc.rotationSpeed * 0.005, radius)
  }

  function SpiralSize(sc: Scene, i: nat): real {
    sc.size * (0.3 + sc.trig.sin(sc.time * 0.01 + i as real) * 0.2) * sc.volumeFactor
  }

  /** `points = 5 + floor(complexity)`. */
  function StarPoints(complexity: real): int {
    5 + complexity.Floor
  }

  /** `(i / shapeCount) * PI * 2 + time * animationSpeed * 0.01`: no complexity factor. */
  function StarAngle(sc: Scene, i: nat): real
    requires sc.Valid() && i < sc.count
  {
    (i as real / sc.count as real) * sc.trig.pi * 2.0 + sc.time * sc.animationSpeed * 0.01
  }

  function StarCenter(sc: Scene, i: nat): Point
    requires sc.Valid() && i < sc.count
  {
    sc.trig.Polar(Point(sc.width / 2.0, sc.height / 2.0), StarAngle(sc, i), Min(sc.width, sc.height) * 0.35)
  }

  /** `step = PI / points`; only read when `points > 0`. */
  function StarStep(g: Trig, points: int): real {
    if points != 0 then g.pi / points as real else 0.0
  }

  /**
   * Vertex `j` of the star outline, at angle `j * step` from the star's
   * centre: outer radius `size` on even `j`, half of it on odd `j`.
   */
  function StarVertex(g: Trig, points: int, size: real, j: nat): Point {
    g.Polar(Point(0.0, 0.0), j as real * StarStep(g, points), if j % 2 == 0 then size else size * 0.5)
  }

  /** The first `n` outline operations: a move to vertex 0, then lines. */
  function StarOutline(g: Trig, points: int, size: real, n: nat): (r: seq<PathOp>)
    ensures |r| == n
    ensures forall j :: 0 <= j < n ==> r[j] == (if j == 0 then Move(StarVertex(g, points, size, j))
                                                else Line(StarVertex(g, points, size, j)))
  {
    if n == 0 then []
    else
      var v := StarVertex(g, points, size, n - 1);
      StarOutline(g, points, size, n - 1) + [if n - 1 == 0 then Move(v) else Line(v)]
  }

  /** The whole star path: `2 * points` vertices, then `closePath`. */
  function StarPath(g: Trig, points: int, size: real): seq<PathOp> {
    StarOutline(g, points, size, if points > 0 then 2 * points else 0) + [Close]
  }

  /** Circle `i`: filled at alpha `opacity` in its palette colour, at the pulsing size. */
  function CircleDraw(sc: Scene, i: nat): Draw
    requires sc.Valid() && i < sc.count
  {
    Filled([Circle(CircleCenter(sc, i), PulseSize(sc, i))], sc.opacity, ShapeColor(sc, i), sc.shadow, sc.transform)
  }

  /** Triangle `i`: filled in a frame moved to its centre and turned by its angle. */
  function TriangleDraw(sc: Scene, i: nat): Draw
    requires sc.Valid() && i < sc.count
  {
    var c := TriangleCenter(sc, i);
    Filled(TrianglePath(PulseSize(sc, i)), sc.opacity, ShapeColor(sc, i), sc.shadow,
           sc.transform + [Shift(c.x, c.y), Turn(Angle(sc, i) + sc.time * sc.rotationSpeed * 0.01)])
  }

  /** Line `i`: a stroked segment of width 3. */
  function LineDraw(sc: Scene, i: nat): Draw
    requires sc.Valid() && i < sc.count
  {
    Stroked([Move(LineStart(sc, i)), Line(LineEnd(sc, i))], sc.opacity, ShapeColor(sc, i), 3.0,
            sc.shadow, sc.transform)
  }

  /** Spiral dot `i`. */
  function SpiralDraw(sc: Scene, i: nat): Draw
    requires sc.Valid() && i < sc.count
  {
    Filled([Circle(SpiralCenter(sc, i), SpiralSize(sc, i))], sc.opacity, ShapeColor(sc, i), sc.shadow, sc.transform)
  }

  /** Star `i`: the star path, in palette colour `i mod L` (no audio offset), moved and turned. */
  function StarDraw(sc: Scene, i: nat): Draw
    requires sc.Valid() && i < sc.count
  {
    var c := StarCenter(sc, i);
    Filled(StarPath(sc.trig, StarPoints(sc.complexity), sc.size), sc.opacity,
           Solid(sc.colors[i % |sc.colors|]), sc.shadow,
           sc.transform + [Shift(c.x, c.y), Turn(StarAngle(sc, i) + sc.time * sc.rotationSpeed * 0.01)])
  }

  /** What the renderer of shape kind `s` draws for shape `i`. */
  function ShapeDraw(s: Shape, sc: Scene, i: nat): Draw
    requires sc.Valid() && i < sc.count
  {
    match s
    case Circles => CircleDraw(sc, i)
    case Triangles => TriangleDraw(sc, i)
    case Lines => LineDraw(sc, i)
    case Spiral => SpiralDraw(sc, i)
    case Stars => StarDraw(sc, i)
  }

  /** The draws of shapes `0 .. n-1`, in order. */
  function ShapeDraws(s: Shape, sc: Scene, n: nat): (r: seq<Draw>)
    requires sc.Valid() && n <= Count(sc.count)
    ensures |r| == n
  {
    if n == 0 then [] else ShapeDraws(s, sc, n - 1) + [ShapeDraw(s, sc, n - 1)]
  }

  /** The draws of a whole frame of one shape kind; none when `shapeCount <= 0`. */
  function FrameDraws(s: Shape, sc: Scene): (r: seq<Draw>)
    requires sc.Valid()
  {
    ShapeDraws(s, sc, Count(sc.count))
  }

  /** `a + (b + c) == (a + b) + c`, stated once so the loops need not rediscover it. */
  lemma Assoc<T>(a: seq<T>, b: seq<T>, c: seq<T>)
    ensures a + (b + c) == (a + b) + c
  {
  }

  // ----- the renderers -----

  /** Shape `i` of drawCirclePattern: set the style, trace one circle, fill it. */
  method DrawCircle(ctx: Context, sc: Scene, i: nat)
    requires sc.Valid() && i < sc.count
    requires sc.shadow == ctx.CurrentShadow() && sc.transform == ctx.transform
    modifies ctx`globalAlpha, ctx`fillStyle, ctx`path, ctx`drawn
    ensures ctx.drawn == old(ctx.drawn) + [CircleDraw(sc, i)]
    ensures ctx.globalAlpha == sc.opacity
  {
    var c := CircleCenter(sc, i);
    ctx.globalAlpha := sc.opacity;
    ctx.fillStyle := ShapeColor(sc, i);
    ctx.BeginPath();
    ctx.Arc(c.x, c.y, PulseSize(sc, i));
    assert ctx.path == [Circle(c, PulseSize(sc, i))];
    ctx.Fill();
  }

  /** The loop of drawCirclePattern, over the scene fixed before it. */
  method DrawCircles(ctx: Context, sc: Scene)
    requires sc.Valid() && sc.shadow == ctx.CurrentShadow() && sc.transform == ctx.transform
    modifies ctx`globalAlpha, ctx`fillStyle, ctx`path, ctx`drawn
    ensures ctx.drawn == old(ctx.drawn) + FrameDraws(Circles, sc)
    ensures ctx.globalAlpha == if Count(sc.count) == 0 then old(ctx.globalAlpha) else sc.opacity
  {
    ghost var d0 := ctx.drawn;
    var i := 0;
    while i < sc.count
      invariant 0 <= i <= Count(sc.count)
      invariant ctx.drawn == d0 + ShapeDraws(Circles, sc, i)
      invariant sc.shadow == ctx.CurrentShadow() && sc.transform == ctx.transform
      invariant ctx.globalAlpha == if i == 0 then old(ctx.globalAlpha) else sc.opacity
    {
      DrawCircle(ctx, sc, i);
      Assoc(d0, ShapeDraws(Circles, sc, i), [ShapeDraw(Circles, sc, i)]);
      i := i + 1;
    }
  }

  /** drawCirclePattern: `shapeCount` filled circles. */
  method DrawCirclePattern(ctx: Context, g: Trig, time: real, p: ArtParameters, audio: AudioData)
    requires Constants.ResolvePalette(p.colorPalette).Some? && |Constants.ResolvePalette(p.colorPalette).value| > 0
    requires p.audioReactive ==> audio.frequency >= 0.0
    modifies ctx`globalAlpha, ctx`fillStyle, ctx`path, ctx`drawn
    ensures var sc := MakeScene(g, ctx.width, ctx.height, time, p, audio, Constants.ResolvePalette(p.colorPalette).value,
                                ctx.CurrentShadow(), ctx.transform);
      && ctx.drawn == old(ctx.drawn) + FrameDraws(Circles, sc)
    ensures ctx.globalAlpha == if Count(p.shapeCount) == 0 then old(ctx.globalAlpha) else p.opacity
  {
    var colors := Constants.ResolvePalette(p.colorPalette).value;
    var sc := MakeScene(g, ctx.width, ctx.height, time, p, audio, colors, ctx.CurrentShadow(), ctx.transform);
    DrawCircles(ctx, sc);
  }

  /** The body of triangle `i` between `save` and `restore`: move, turn, style, trace, fill. */
  method FillTriangle(ctx: Context, sc: Scene, i: nat)
    requires sc.Valid() && i < sc.count
    requires sc.shadow == ctx.CurrentShadow() && sc.transform == ctx.transform
    modifies ctx`transform, ctx`globalAlpha, ctx`fillStyle, ctx`path, ctx`drawn
    ensures ctx.drawn == old(ctx.drawn) + [TriangleDraw(sc, i)]
  {
    var c := TriangleCenter(sc, i);
    var turn := Angle(sc, i) + sc.time * sc.rotationSpeed * 0.01;
    var size := PulseSize(sc, i);
    ctx.Translate(c.x, c.y);
    ctx.Rotate(turn);
    ctx.globalAlpha := sc.opacity;
    ctx.fillStyle := ShapeColor(sc, i);
    ctx.BeginPath();
    ctx.MoveTo(0.0, -size);
    ctx.LineTo(-size * 0.866, size * 0.5);
    ctx.LineTo(size * 0.866, size * 0.5);
    ctx.ClosePath();
    assert ctx.path == TrianglePath(size);
    ghost var d := TriangleDraw(sc, i);
    assert d.transform[|sc.transform|] == Shift(c.x, c.y);
    assert d.transform[|sc.transform| + 1] == Turn(turn);
    assert ctx.transform == d.transform;
    ctx.Fill();
  }

  /** Shape `i` of drawTrianglePattern, between `save` and `restore`. */
  method DrawTriangle(ctx: Context, sc: Scene, i: nat)
    requires sc.Valid() && i < sc.count
    requires sc.shadow == ctx.CurrentShadow() && sc.transform == ctx.transform
    modifies ctx
    ensures ctx.drawn == old(ctx.drawn) + [TriangleDraw(sc, i)]
    ensures ctx.Snapshot() == old(ctx.Snapshot()) && ctx.stack == old(ctx.stack)
  {
    ctx.Save();
    FillTriangle(ctx, sc, i);
    ctx.Restore();
  }

  /** The loop of drawTrianglePattern. */
  method DrawTriangles(ctx: Context, sc: Scene)
    requires sc.Valid() && sc.shadow == ctx.CurrentShadow() && sc.transform == ctx.transform
    modifies ctx
    ensures ctx.drawn == old(ctx.drawn) + FrameDraws(Triangles, sc)
    ensures ctx.Snapshot() == old(ctx.Snapshot()) && ctx.stack == old(ctx.stack)
  {
    ghost var d0 := ctx.drawn;
    var i := 0;
    while i < sc.count
      invariant 0 <= i <= Count(sc.count)
      invariant ctx.drawn == d0 + ShapeDraws(Triangles, sc, i)
      invariant ctx.Snapshot() == old(ctx.Snapshot()) && ctx.stack == old(ctx.stack)
    {
      DrawTriangle(ctx, sc, i);
      Assoc(d0, ShapeDraws(Triangles, sc, i), [ShapeDraw(Triangles, sc, i)]);
      i := i + 1;
    }
  }

  /**
   * drawTrianglePattern: `shapeCount` filled triangles, each in its own
   * translated and rotated frame; every `save` is matched by a `restore`.
   */
  method DrawTrianglePattern(ctx: Context, g: Trig, time: real, p: ArtParameters, audio: AudioData)
    requires Constants.ResolvePalette(p.colorPalette).Some? && |Constants.ResolvePalette(p.colorPalette).value| > 0
    requires p.audioReactive ==> audio.frequency >= 0.0
    modifies ctx
    ensures ctx.drawn == old(ctx.drawn) + FrameDraws(Triangles,
      MakeScene(g, ctx.width, ctx.height, time, p, audio, Constants.ResolvePalette(p.colorPalette).value,
                ctx.CurrentShadow(), ctx.transform))
    ensures ctx.Snapshot() == old(ctx.Snapshot()) && ctx.stack == old(ctx.stack)
  {
    var colors := Constants.ResolvePalette(p.colorPalette).value;
    var sc := MakeScene(g, ctx.width, ctx.height, time, p, audio, colors, ctx.CurrentShadow(), ctx.transform);
    DrawTriangles(ctx, sc);
  }

  /** Shape `i` of drawLinePattern: set the style, trace one segment, stroke it. */
  method DrawLine(ctx: Context, sc: Scene, i: nat)
    requires sc.Valid() && i < sc.count
    requires sc.shadow == ctx.CurrentShadow() && sc.transform == ctx.transform && ctx.lineWidth == 3.0
    modifies ctx`globalAlpha, ctx`strokeStyle, ctx`path, ctx`drawn
    ensures ctx.drawn == old(ctx.drawn) + [LineDraw(sc, i)]
    ensures ctx.globalAlpha == sc.opacity
  {
    var start := LineStart(sc, i);
    var end := LineEnd(sc, i);
    ctx.globalAlpha := sc.opacity;
    ctx.strokeStyle := ShapeColor(sc, i);
    ctx.BeginPath();
    ctx.MoveTo(start.x, start.y);
    ctx.LineTo(end.x, end.y);
    assert ctx.path == [Move(start), Line(end)];
    ctx.Stroke();
  }

  /** The loop of drawLinePattern; the line width is already 3. */
  method DrawLines(ctx: Context, sc: Scene)
    requires sc.Valid() && sc.shadow == ctx.CurrentShadow() && sc.transform == ctx.transform
    requires ctx.lineWidth == 3.0
    modifies ctx`globalAlpha, ctx`strokeStyle, ctx`path, ctx`drawn
    ensures ctx.drawn == old(ctx.drawn) + FrameDraws(Lines, sc)
    ensures ctx.globalAlpha == if Count(sc.count) == 0 then old(ctx.globalAlpha) else sc.opacity
  {
    ghost var d0 := ctx.drawn;
    var i := 0;
    while i < sc.count
      invariant 0 <= i <= Count(sc.count)
      invariant ctx.drawn == d0 + ShapeDraws(Lines, sc, i)
      invariant sc.shadow == ctx.CurrentShadow() && sc.transform == ctx.transform && ctx.lineWidth == 3.0
      invariant ctx.globalAlpha == if i == 0 then old(ctx.globalAlpha) else sc.opacity
    {
      DrawLine(ctx, sc, i);
      Assoc(d0, ShapeDraws(Lines, sc, i), [ShapeDraw(Lines, sc, i)]);
      i := i + 1;
    }
  }

  /** drawLinePattern: the line width becomes 3, then `shapeCount` stroked rays. */
  method DrawLinePattern(ctx: Context, g: Trig, time: real, p: ArtParameters, audio: AudioData)
    requires Constants.ResolvePalette(p.colorPalette).Some? && |Constants.ResolvePalette(p.colorPalette).value| > 0
    requires p.audioReactive ==> audio.frequency >= 0.0
    modifies ctx`globalAlpha, ctx`strokeStyle, ctx`lineWidth, ctx`path, ctx`drawn
    ensures ctx.lineWidth == 3.0
    ensures var sc := MakeScene(g, ctx.width, ctx.height, time, p, audio, Constants.ResolvePalette(p.colorPalette).value,
                                ctx.CurrentShadow(), ctx.transform);
      && ctx.drawn == old(ctx.drawn) + FrameDraws(Lines, sc)
    ensures ctx.globalAlpha == if Count(p.shapeCount) == 0 then old(ctx.globalAlpha) else p.opacity
  {
    var colors := Constants.ResolvePalette(p.colorPalette).value;
    var sc := MakeScene(g, ctx.width, ctx.height, time, p, audio, colors, ctx.CurrentShadow(), ctx.transform);
    ctx.lineWidth := 3.0;
    DrawLines(ctx, sc);
  }

  /** Shape `i` of drawSpiral: set the style, trace one dot, fill it. */
  method DrawSpiralDot(ctx: Context, sc: Scene, i: nat)
    requires sc.Valid() && i < sc.count
    requires sc.shadow == ctx.CurrentShadow() && sc.transform == ctx.transform
    modifies ctx`globalAlpha, ctx`fillStyle, ctx`path, ctx`drawn
    ensures ctx.drawn == old(ctx.drawn) + [SpiralDraw(sc, i)]
    ensures ctx.globalAlpha == sc.opacity
  {
    var c := SpiralCenter(sc, i);
    ctx.globalAlpha := sc.opacity;
    ctx.fillStyle := ShapeColor(sc, i);
    ctx.BeginPath();
    ctx.Arc(c.x, c.y, SpiralSize(sc, i));
    assert ctx.path == [Circle(c, SpiralSize(sc, i))];
    ctx.Fill();
  }

  /** The loop of drawSpiral. */
  method DrawSpiralDots(ctx: Context, sc: Scene)
    requires sc.Valid() && sc.shadow == ctx.CurrentShadow() && sc.transform == ctx.transform
    modifies ctx`globalAlpha, ctx`fillStyle, ctx`path, ctx`drawn
    ensures ctx.drawn == old(ctx.drawn) + FrameDraws(Spiral, sc)
    ensures ctx.globalAlpha == if Count(sc.count) == 0 then old(ctx.globalAlpha) else sc.opacity
  {
    ghost var d0 := ctx.drawn;
    var i := 0;
    while i < sc.count
      invariant 0 <= i <= Count(sc.count)
      invariant ctx.drawn == d0 + ShapeDraws(Spiral, sc, i)
      invariant sc.shadow == ctx.CurrentShadow() && sc.transform == ctx.transform
      invariant ctx.globalAlpha == if i == 0 then old(ctx.globalAlpha) else sc.opacity
    {
      DrawSpiralDot(ctx, sc, i);
      Assoc(d0, ShapeDraws(Spiral, sc, i), [ShapeDraw(Spiral, sc, i)]);
      i := i + 1;
    }
  }

  /** drawSpiral: `shapeCount` filled dots on a widening spiral. */
  method DrawSpiral(ctx: Context, g: Trig, time: real, p: ArtParameters, audio: AudioData)
    requires Constants.ResolvePalette(p.colorPalette).Some? && |Constants.ResolvePalette(p.colorPalette).value| > 0
    requires p.audioReactive ==> audio.frequency >= 0.0
    modifies ctx`globalAlpha, ctx`fillStyle, ctx`path, ctx`drawn
    ensures var sc := MakeScene(g, ctx.width, ctx.height, time, p, audio, Constants.ResolvePalette(p.colorPalette).value,
                                ctx.CurrentShadow(), ctx.transform);
      && ctx.drawn == old(ctx.drawn) + FrameDraws(Spiral, sc)
    ensures ctx.globalAlpha == if Count(p.shapeCount) == 0 then old(ctx.globalAlpha) else p.opacity
  {
    var colors := Constants.ResolvePalette(p.colorPalette).value;
    var sc := MakeScene(g, ctx.width, ctx.height, time, p, audio, colors, ctx.CurrentShadow(), ctx.transform);
    DrawSpiralDots(ctx, sc);
  }

  /** The inner `j` loop of drawStarPattern: the star outline added to the current path. */
  method TraceStar(ctx: Context, g: Trig, points: int, size: real)
    modifies ctx`path
    ensures ctx.path == old(ctx.path) + StarOutline(g, points, size, if points > 0 then 2 * points else 0)
  {
    var j := 0;
    while j < points * 2
      invariant 0 <= j && (points > 0 ==> j <= 2 * points) && (points <= 0 ==> j == 0)
      invariant ctx.path == old(ctx.path) + StarOutline(g, points, size, j)
    {
      var v := StarVertex(g, points, size, j);
      if j == 0 {
        ctx.MoveTo(v.x, v.y);
      } else {
        ctx.LineTo(v.x, v.y);
      }
      j := j + 1;
    }
  }

  /** `beginPath`, the outline, `closePath`: the current path becomes the star path. */
  method TraceStarPath(ctx: Context, g: Trig, points: int, size: real)
    modifies ctx`path
    ensures ctx.path == StarPath(g, points, size)
  {
    ctx.BeginPath();
    TraceStar(ctx, g, points, size);
    ctx.ClosePath();
  }

  /** The body of star `i` between `save` and `restore`: move, turn, style, trace, fill. */
  method FillStar(ctx: Context, sc: Scene, i: nat)
    requires sc.Valid() && i < sc.count
    requires sc.shadow == ctx.CurrentShadow() && sc.transform == ctx.transform
    modifies ctx`transform, ctx`globalAlpha, ctx`fillStyle, ctx`path, ctx`drawn
    ensures ctx.drawn == old(ctx.drawn) + [StarDraw(sc, i)]
  {
    var c := StarCenter(sc, i);
    var turn := StarAngle(sc, i) + sc.time * sc.rotationSpeed * 0.01;
    ctx.Translate(c.x, c.y);
    ctx.Rotate(turn);
    ctx.globalAlpha := sc.opacity;
    ctx.fillStyle := Solid(sc.colors[i % |sc.colors|]);
    TraceStarPath(ctx, sc.trig, StarPoints(sc.complexity), sc.size);
    ghost var d := StarDraw(sc, i);
    assert d.transform[|sc.transform|] == Shift(c.x, c.y);
    assert d.transform[|sc.transform| + 1] == Turn(turn);
    assert ctx.transform == d.transform;
    ctx.Fill();
  }

  /** Shape `i` of drawStarPattern, between `save` and `restore`. */
  method DrawStar(ctx: Context, sc: Scene, i: nat)
    requires sc.Valid() && i < sc.count
    requires sc.shadow == ctx.CurrentShadow() && sc.transform == ctx.transform
    modifies ctx
    ensures ctx.drawn == old(ctx.drawn) + [StarDraw(sc, i)]
    ensures ctx.Snapshot() == old(ctx.Snapshot()) && ctx.stack == old(ctx.stack)
  {
    ctx.Save();
    FillStar(ctx, sc, i);
    ctx.Restore();
  }

  /** The loop of drawStarPattern. */
  method DrawStars(ctx: Context, sc: Scene)
    requires sc.Valid() && sc.shadow == ctx.CurrentShadow() && sc.transform == ctx.transform
    modifies ctx
    ensures ctx.drawn == old(ctx.drawn) + FrameDraws(Stars, sc)
    ensures ctx.Snapshot() == old(ctx.Snapshot()) && ctx.stack == old(ctx.stack)
  {
    ghost var d0 := ctx.drawn;
    var i := 0;
    while i < sc.count
      invariant 0 <= i <= Count(sc.count)
      invariant ctx.drawn == d0 + ShapeDraws(Stars, sc, i)
      invariant ctx.Snapshot() == old(ctx.Snapshot()) && ctx.stack == old(ctx.stack)
    {
      DrawStar(ctx, sc, i);
      Assoc(d0, ShapeDraws(Stars, sc, i), [ShapeDraw(Stars, sc, i)]);
      i := i + 1;
    }
  }

  /**
   * drawStarPattern: `shapeCount` filled stars. It reads no audio and looks
   * the palette up by key only; every `save` is matched by a `restore`.
   */
  method DrawStarPattern(ctx: Context, g: Trig, time: real, p: ArtParameters)
    requires StarPalette(p.colorPalette).Some?
    modifies ctx
    ensures |StarPalette(p.colorPalette).value| == 5
    ensures ctx.drawn == old(ctx.drawn) + FrameDraws(Stars,
      MakeScene(g, ctx.width, ctx.height, time, p, Silence, StarPalette(p.colorPalette).value,
                ctx.CurrentShadow(), ctx.transform))
    ensures ctx.Snapshot() == old(ctx.Snapshot()) && ctx.stack == old(ctx.stack)
  {
    var colors := StarPalette(p.colorPalette).value;
    var sc := MakeScene(g, ctx.width, ctx.height, time, p, Silence, colors, ctx.CurrentShadow(), ctx.transform);
    DrawStars(ctx, sc);
  }

  // ----- properties of a frame -----

  /** Draw `k` of the first `n` is the draw of shape `k`. */
  lemma {:induction false} ShapeDrawsAt(s: Shape, sc: Scene, n: nat, k: nat)
    requires sc.Valid() && k < n <= Count(sc.count)
    ensures ShapeDraws(s, sc, n)[k] == ShapeDraw(s, sc, k)
  {
    if k < n - 1 {
      ShapeDrawsAt(s, sc, n - 1, k);
    }
  }

  /**
   * Shape `k` of a frame is filled (stroked for lines) at alpha `opacity`, in
   * palette colour `(k + colorOffset) mod L`; stars use `k mod L`.
   */
  lemma FrameStyle(s: Shape, sc: Scene, k: nat)
    requires sc.Valid() && k < Count(sc.count)
    ensures |FrameDraws(s, sc)| == Count(sc.count)
    ensures var d := FrameDraws(s, sc)[k];
      && (if s == Lines then d.Stroked? && d.lineWidth == 3.0 else d.Filled?)
      && d.alpha == sc.opacity
      && d.paint == Solid(sc.colors[if s == Stars then k % |sc.colors| else (k + sc.colorOffset) % |sc.colors|])
      && d.shadow == sc.shadow
  {
    ShapeDrawsAt(s, sc, Count(sc.count), k);
  }

  /** Triangles and stars are drawn in a frame extended by one translation and one rotation. */
  lemma FrameTransforms(s: Shape, sc: Scene, k: nat)
    requires sc.Valid() && k < Count(sc.count)
    ensures var d := FrameDraws(s, sc)[k];
      && (d.Filled? || d.Stroked?)
      && |d.transform| >= |sc.transform|
      && (s == Triangles || s == Stars <==> |d.transform| == |sc.transform| + 2)
      && d.transform[..|sc.transform|] == sc.transform
  {
    ShapeDrawsAt(s, sc, Count(sc.count), k);
  }

  /** The first `n` draws under the silent snapshot are those with audio off, whatever its data. */
  lemma {:induction false} SilentShapes(
    s: Shape, g: Trig, width: nat, height: nat, time: real, p: ArtParameters, audio: AudioData,
    colors: seq<string>, shadow: Shadow, transform: seq<Transform>, n: nat)
    requires |colors| > 0 && n <= Count(p.shapeCount)
    ensures ShapeDraws(s, MakeScene(g, width, height, time, p, Silence, colors, shadow, transform), n)
         == ShapeDraws(s, MakeScene(g, width, height, time, p.(audioReactive := false), audio, colors, shadow, transform), n)
  {
    if n > 0 {
      SilentShapes(s, g, width, height, time, p, audio, colors, shadow, transform, n - 1);
    }
  }

  /**
   * Audio neutrality: with the snapshot {0, 0} a frame is the frame drawn with
   * `audioReactive` off, and that frame does not depend on the audio data.
   */
  lemma SilenceIsNeutral(
    s: Shape, g: Trig, width: nat, height: nat, time: real, p: ArtParameters, audio: AudioData,
    colors: seq<string>, shadow: Shadow, transform: seq<Transform>)
    requires |colors| > 0
    ensures FrameDraws(s, MakeScene(g, width, height, time, p, Silence, colors, shadow, transform))
         == FrameDraws(s, MakeScene(g, width, height, time, p.(audioReactive := false), audio, colors, shadow, transform))
  {
    SilentShapes(s, g, width, height, time, p, audio, colors, shadow, transform, Count(p.shapeCount));
  }

  /** Star `i` does not depend on the two audio factors of the scene. */
  lemma StarIgnoresFactors(sc: Scene, volumeFactor: real, colorOffset: int, i: nat)
    requires sc.Valid() && colorOffset >= 0 && i < sc.count
    ensures StarDraw(sc, i) == StarDraw(sc.(volumeFactor := volumeFactor, colorOffset := colorOffset), i)
  {
    var sc' := sc.(volumeFactor := volumeFactor, colorOffset := colorOffset);
    assert sc'.trig == sc.trig && sc'.complexity == sc.complexity && sc'.size == sc.size;
    assert sc'.time == sc.time && sc'.rotationSpeed == sc.rotationSpeed && sc'.transform == sc.transform;
    assert StarAngle(sc', i) == StarAngle(sc, i);
    assert StarCenter(sc', i) == StarCenter(sc, i);
    var d, d' := StarDraw(sc, i), StarDraw(sc', i);
    var n := |sc.transform|;
    assert d.transform[n] == d'.transform[n] && d.transform[n + 1] == d'.transform[n + 1];
    assert d.transform[..n] == sc.transform == d'.transform[..n];
    assert d.transform == d.transform[..n] + [d.transform[n], d.transform[n + 1]];
    assert d'.transform == d'.transform[..n] + [d'.transform[n], d'.transform[n + 1]];
  }

  /** The first `n` stars do not depend on the two audio factors of the scene. */
  lemma {:induction false} StarsIgnoreFactors(sc: Scene, volumeFactor: real, colorOffset: int, n: nat)
    requires sc.Valid() && colorOffset >= 0 && n <= Count(sc.count)
    ensures ShapeDraws(Stars, sc, n) == ShapeDraws(Stars, sc.(volumeFactor := volumeFactor, colorOffset := colorOffset), n)
  {
    if n > 0 {
      var sc' := sc.(volumeFactor := volumeFactor, colorOffset := colorOffset);
      StarsIgnoreFactors(sc, volumeFactor, colorOffset, n - 1);
      StarIgnoresFactors(sc, volumeFactor, colorOffset, n - 1);
    }
  }

  /** Stars ignore audio: a star frame is the same whatever audio data the scene was made with. */
  lemma StarsIgnoreAudio(
    g: Trig, width: nat, height: nat, time: real, p: ArtParameters, a1: AudioData, a2: AudioData,
    colors: seq<string>, shadow: Shadow, transform: seq<Transform>)
    requires |colors| > 0
    requires p.audioReactive ==> a1.frequency >= 0.0 && a2.frequency >= 0.0
    ensures FrameDraws(Stars, MakeScene(g, width, height, time, p, a1, colors, shadow, transform))
         == FrameDraws(Stars, MakeScene(g, width, height, time, p, a2, colors, shadow, transform))
  {
    var sc1 := MakeScene(g, width, height, time, p, a1, colors, shadow, transform);
    var sc2 := MakeScene(g, width, height, time, p, a2, colors, shadow, transform);
    assert sc2 == sc1.(volumeFactor := sc2.volumeFactor, colorOffset := sc2.colorOffset);
    StarsIgnoreFactors(sc1, sc2.volumeFactor, sc2.colorOffset, Count(p.shapeCount));
  }

  /**
   * The star path: `2 * points` vertices, a move to vertex 0 and lines to the
   * others, then a close; just a close when `points <= 0`.
   */
  lemma StarPathShape(g: Trig, points: int, size: real)
    ensures points <= 0 ==> StarPath(g, points, size) == [Close]
    ensures points > 0 ==>
      var path := StarPath(g, points, size);
      && |path| == 2 * points + 1 && path[2 * points] == Close
      && path[0] == Move(StarVertex(g, points, size, 0))
      && forall j :: 0 < j < 2 * points ==> path[j] == Line(StarVertex(g, points, size, j))
  {
    if points > 0 {
      var path := StarPath(g, points, size);
      var outline := StarOutline(g, points, size, 2 * points);
      assert path == outline + [Close];
      forall j | 0 <= j < 2 * points
        ensures path[j] == outline[j]
      {
      }
    }
  }
}
