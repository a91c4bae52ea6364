/** drawFractal of lib/fractals.ts: choose a renderer by `fractalType`. */
module Fractals {
  import opened Types
  import opened Canvas
  import Constants
  import Escape
  import Curves
  import Mandala

  datatype FractalKind = Mandelbrot | Julia | Sierpinski | Koch | Dragon | MandalaKind

  function KindName(k: FractalKind): string {
    match k
    case Mandelbrot => "mandelbrot"
    case Julia => "julia"
    case Sierpinski => "sierpinski"
    case Koch => "koch"
    case Dragon => "dragon"
    case MandalaKind => "mandala"
  }

  /** The `switch` of drawFractal: any name it does not list falls to the Mandelbrot set. */
  function ParseFractal(name: string): (k: FractalKind) {
    if name == "julia" then Julia
    else if name == "sierpinski" then Sierpinski
    else if name == "koch" then Koch
    else if name == "dragon" then Dragon
    else if name == "mandala" then MandalaKind
    else Mandelbrot
  }

  /** Each renderer is selected by exactly its own name. */
  lemma ParseKindName(k: FractalKind)
    ensures ParseFractal(KindName(k)) == k
  {
  }

  /** A name that is none of the six selects the Mandelbrot set. */
  lemma UnknownIsMandelbrot(name: string)
    requires forall k: FractalKind :: name != KindName(k)
    ensures ParseFractal(name) == Mandelbrot
  {
    assert name != KindName(Julia) && name != KindName(Sierpinski) && name != KindName(Koch);
    assert name != KindName(Dragon) && name != KindName(MandalaKind);
  }

  predicate PaletteUsable(p: ArtParameters) {
    Constants.ResolvePalette(p.colorPalette).Some? && |Constants.ResolvePalette(p.colorPalette).value| > 0
  }

  /**
   * What the chosen renderer needs so that it neither throws nor recurses
   * forever: the escape-time sets need a non-empty canvas, a non-zero budget
   * and a palette; the Sierpinski triangle a palette; the Koch snowflake and the
   * dragon a palette and a budget that is not negative; the mandala, which
   * ignores the palette, only a frame time that is not negative.
   */
  predicate Drawable(k: FractalKind, p: ArtParameters, width: nat, height: nat, time: real) {
    match k
    case Mandelbrot | Julia => width > 0 && height > 0 && p.fractalIterations != 0 && PaletteUsable(p)
    case Sierpinski => PaletteUsable(p)
    case Koch | Dragon => p.fractalIterations >= 0 && PaletteUsable(p)
    case MandalaKind => time >= 0.0
  }

  /** What a frame of kind `k` appends to the drawing log. */
  function FractalDraws(
    k: FractalKind, g: Trig, time: real, p: ArtParameters, width: nat, height: nat,
    shadow: Shadow, transform: seq<Transform>): (r: seq<Draw>)
    requires g.Valid() && Drawable(k, p, width, height, time)
    ensures k == Mandelbrot || k == Julia ==> |r| == 1 && r[0].ImagePut?
  {
    match k
    case Mandelbrot | Julia =>
      var colors := Constants.ResolvePalette(p.colorPalette).value;
      var kind := if k == Julia then Escape.Julia else Escape.Mandelbrot;
      [ImagePut(Escape.Image(Escape.MakeView(kind, g, time, width, height, p, colors)), width, height)]
    case Sierpinski =>
      var colors := Constants.ResolvePalette(p.colorPalette).value;
      Curves.SierpinskiFrame(Curves.MakePen(g, p, colors, shadow, transform), width, height)
    case Koch =>
      var pen := Curves.MakePen(g, p, Constants.ResolvePalette(p.colorPalette).value, shadow, transform);
      Curves.Strokes(pen, 2.0, Curves.SnowflakeLeaves(
        g, Curves.Middle(width, height), Curves.CurveSize(width, height), Curves.StartAngle(g, time),
        Curves.MinInt(p.fractalIterations, 5), 3))
    case Dragon =>
      var pen := Curves.MakePen(g, p, Constants.ResolvePalette(p.colorPalette).value, shadow, transform);
      Curves.Strokes(pen, 3.0, Curves.DragonLeaves(
        g, Curves.DragonStart(width, height), Curves.CurveSize(width, height),
        Curves.StartAngle(g, time), Curves.MinInt(p.fractalIterations, 12), 1.0))
    case MandalaKind =>
      Mandala.MandalaFrame(Mandala.MakeScene(g, time, p, width, height, transform))
  }

  /** drawFractal: the renderer `fractalType` names draws one frame. */
  method DrawFractal(ctx: Context, g: Trig, time: real, p: ArtParameters)
    requires g.Valid() && Drawable(ParseFractal(p.fractalType), p, ctx.width, ctx.height, time)
    modifies ctx`globalAlpha, ctx`fillStyle, ctx`strokeStyle, ctx`lineWidth, ctx`shadowColor, ctx`shadowBlur
    modifies ctx`path, ctx`drawn
    ensures ctx.drawn == old(ctx.drawn) + FractalDraws(
      ParseFractal(p.fractalType), g, time, p, ctx.width, ctx.height, old(ctx.CurrentShadow()), ctx.transform)
  {
    var k := ParseFractal(p.fractalType);
    match k
    case Mandelbrot =>
      Escape.DrawEscapeFractal(ctx, Escape.Mandelbrot, g, time, p);
    case Julia =>
      Escape.DrawEscapeFractal(ctx, Escape.Julia, g, time, p);
    case Sierpinski =>
      Curves.DrawSierpinskiTriangle(ctx, g, time, p);
    case Koch =>
      Curves.DrawKochSnowflake(ctx, g, time, p);
    case Dragon =>
      Curves.DrawDragonCurve(ctx, g, time, p);
    case MandalaKind =>
      Mandala.DrawMandala(ctx, g, time, p);
  }
}
