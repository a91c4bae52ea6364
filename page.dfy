/**
 * The driver logic of app/page.tsx: the background behind every frame, the
 * choice of renderer, the palette selection and the randomizer.
 */
module Page {
  import opened Types
  import opened Canvas
  import Constants
  import JsString
  import Patterns
  import Fractals

  // ----- the background -----

  /** `allBackgroundColors`: the table with its `custom` entry replaced by the editable pair. */
  function AllBackgrounds(custom: Constants.Background): (m: map<string, Constants.Background>)
    ensures m.Keys == Constants.BackgroundColors().Keys
    ensures m["custom"] == custom
  {
    Constants.BackgroundKeys();
    Constants.BackgroundColors()["custom" := custom]
  }

  /** `allBackgroundColors[key] || allBackgroundColors.dark`. */
  function BackgroundFor(key: string, custom: Constants.Background): (b: Constants.Background)
  {
    var all := AllBackgrounds(custom);
    Constants.BackgroundKeys();
    if key in all then all[key] else all["dark"]
  }

  /**
   * `custom` gives the editable pair, every other table key its table entry,
   * and a key outside the table the `dark` pair.
   */
  lemma BackgroundLookup(key: string, custom: Constants.Background)
    ensures key == "custom" ==> BackgroundFor(key, custom) == custom
    ensures key != "custom" && key in Constants.BackgroundKeyNames ==>
      BackgroundFor(key, custom) == Constants.BackgroundColors()[key]
    ensures key !in Constants.BackgroundKeyNames ==> BackgroundFor(key, custom) == Constants.Dark
  {
    Constants.BackgroundKeys();
  }

  /** With a well-formed editable pair, every background is a pair of `#rrggbb` colours. */
  lemma BackgroundIsHex(key: string, custom: Constants.Background)
    requires Constants.IsHexColor(custom.primary) && Constants.IsHexColor(custom.secondary)
    ensures var b := BackgroundFor(key, custom);
      Constants.IsHexColor(b.primary) && Constants.IsHexColor(b.secondary)
  {
    Constants.BackgroundKeys();
    if key != "custom" {
      var k := if key in Constants.BackgroundColors() then key else "dark";
      Constants.BackgroundsWellFormed(k);
    }
  }

  function MaxReal(a: real, b: real): real {
    if a >= b then a else b
  }

  /** The outer radius: half the larger side of the canvas seen at the zoom level. */
  function GradientRadius(width: nat, height: nat, zoom: real): (r: real)
    requires zoom > 0.0
    ensures r >= 0.0
  {
    MaxReal(width as real / zoom, height as real / zoom) / 2.0
  }

  /** The radial gradient behind the pattern, from `primary` at the centre to `secondary`. */
  function Gradient(width: nat, height: nat, zoom: real, bg: Constants.Background): (g: Paint)
    requires zoom > 0.0
    ensures g.Radial? && g.center == Point(width as real / 2.0, height as real / 2.0)
    ensures g.innerRadius == 0.0 && g.outerRadius == GradientRadius(width, height, zoom)
    ensures g.inner == bg.primary && g.outer == bg.secondary
  {
    Radial(Point(width as real / 2.0, height as real / 2.0), 0.0, GradientRadius(width, height, zoom),
           bg.primary, bg.secondary)
  }

  /** The gradient reaches half the larger side of the zoomed canvas: `2 * zoom * radius` is that side. */
  lemma GradientCovers(width: nat, height: nat, zoom: real)
    requires zoom > 0.0
    ensures 2.0 * zoom * GradientRadius(width, height, zoom) == MaxReal(width as real, height as real)
  {
    var w := width as real / zoom;
    var h := height as real / zoom;
    assert w * zoom == width as real;
    assert h * zoom == height as real;
    ScaleMax(w, h, zoom, width as real, height as real);
    var m := MaxReal(w, h);
    assert 2.0 * zoom * (m / 2.0) == m * zoom;
  }

  /** Scaling by a positive factor commutes with taking the larger value. */
  lemma ScaleMax(a: real, b: real, z: real, sa: real, sb: real)
    requires z > 0.0 && a * z == sa && b * z == sb
    ensures MaxReal(a, b) * z == MaxReal(sa, sb)
  {
    if a >= b {
      MulMonotone(b, a, z);
    } else {
      MulStrict(a, b, z);
    }
  }

  lemma MulMonotone(a: real, b: real, c: real)
    requires a <= b && c > 0.0
    ensures a * c <= b * c
  {
  }

  lemma MulStrict(a: real, b: real, c: real)
    requires a < b && c > 0.0
    ensures a * c < b * c
  {
  }

  /** The two operations that paint the background, with the state they read. */
  function BackgroundDraws(
    width: nat, height: nat, zoom: real, bg: Constants.Background,
    alpha: real, shadow: Shadow, transform: seq<Transform>): (r: seq<Draw>)
    requires zoom > 0.0
    ensures |r| == 2 && r[0].Cleared? && r[1].RectFilled?
    ensures r[1].paint == Gradient(width, height, zoom, bg) && r[1].alpha == alpha
  {
    [Cleared(0.0, 0.0, width as real, height as real, transform),
     RectFilled(0.0, 0.0, width as real, height as real, alpha, Gradient(width, height, zoom, bg), shadow, transform)]
  }

  // ----- the renderer -----

  datatype PatternKind = CirclesPattern | TrianglesPattern | LinesPattern | StarsPattern | SpiralPattern | FractalPattern

  function PatternName(k: PatternKind): string {
    match k
    case CirclesPattern => "circles"
    case TrianglesPattern => "triangles"
    case LinesPattern => "lines"
    case StarsPattern => "stars"
    case SpiralPattern => "spiral"
    case FractalPattern => "fractal"
  }

  /** The randomizer's list of patterns, in its order. */
  const PatternNames: seq<string> := ["circles", "triangles", "lines", "stars", "spiral", "fractal"]

  /** The `switch (parameters.pattern)` of drawArt; a name it does not list selects nothing. */
  function ParsePattern(s: string): (r: Option<PatternKind>)
    ensures r.Some? ==> PatternName(r.value) == s
    ensures r.None? <==> s !in PatternNames
  {
    if s == "circles" then Some(CirclesPattern)
    else if s == "triangles" then Some(TrianglesPattern)
    else if s == "lines" then Some(LinesPattern)
    else if s == "stars" then Some(StarsPattern)
    else if s == "spiral" then Some(SpiralPattern)
    else if s == "fractal" then Some(FractalPattern)
    else None
  }

  /** Each renderer is selected by exactly its own name. */
  lemma ParsePatternName(k: PatternKind)
    ensures ParsePattern(PatternName(k)) == Some(k)
  {
  }

  /**
   * What the selected renderer needs so that it does not throw: a palette for
   * the four audio patterns, a palette key for the stars, and whatever the
   * selected fractal needs. An unknown pattern needs nothing.
   */
  predicate Renderable(p: ArtParameters, width: nat, height: nat, time: real) {
    match ParsePattern(p.pattern)
    case None => true
    case Some(k) =>
      match k
      case StarsPattern => Patterns.StarPalette(p.colorPalette).Some?
      case FractalPattern => Fractals.Drawable(Fractals.ParseFractal(p.fractalType), p, width, height, time)
      case _ => Fractals.PaletteUsable(p)
  }

  function Colors(p: ArtParameters): seq<string>
    requires Fractals.PaletteUsable(p)
  {
    Constants.ResolvePalette(p.colorPalette).value
  }

  /**
   * What the renderer appends after the background: each known pattern draws
   * its frame with the silent audio snapshot (the stars with no snapshot at
   * all), and an unknown pattern draws nothing.
   */
  function PatternDraws(
    g: Trig, time: real, p: ArtParameters, width: nat, height: nat,
    shadow: Shadow, transform: seq<Transform>): (r: seq<Draw>)
    requires g.Valid() && Renderable(p, width, height, time)
  {
    match ParsePattern(p.pattern)
    case None => []
    case Some(k) =>
      match k
      case CirclesPattern =>
        Patterns.FrameDraws(Patterns.Circles,
          Patterns.MakeScene(g, width, height, time, p, Silence, Colors(p), shadow, transform))
      case TrianglesPattern =>
        Patterns.FrameDraws(Patterns.Triangles,
          Patterns.MakeScene(g, width, height, time, p, Silence, Colors(p), shadow, transform))
      case LinesPattern =>
        Patterns.FrameDraws(Patterns.Lines,
          Patterns.MakeScene(g, width, height, time, p, Silence, Colors(p), shadow, transform))
      case SpiralPattern =>
        Patterns.FrameDraws(Patterns.Spiral,
          Patterns.MakeScene(g, width, height, time, p, Silence, Colors(p), shadow, transform))
      case StarsPattern =>
        Patterns.FrameDraws(Patterns.Stars,
          Patterns.MakeScene(g, width, height, time, p, Silence, Patterns.StarPalette(p.colorPalette).value,
                             shadow, transform))
      case FractalPattern =>
        Fractals.FractalDraws(Fractals.ParseFractal(p.fractalType), g, time, p, width, height, shadow, transform)
  }

  /** A pattern the switch does not list leaves only the background. */
  lemma UnknownPatternDrawsNothing(
    g: Trig, time: real, p: ArtParameters, width: nat, height: nat, shadow: Shadow, transform: seq<Transform>)
    requires g.Valid() && p.pattern !in PatternNames
    ensures Renderable(p, width, height, time)
    ensures PatternDraws(g, time, p, width, height, shadow, transform) == []
  {
  }

  /** One frame on a context: clear, paint the background, draw the pattern. */
  method DrawFrame(
    ctx: Context, g: Trig, time: real, p: ArtParameters, zoom: real, custom: Constants.Background)
    requires g.Valid() && zoom > 0.0 && Renderable(p, ctx.width, ctx.height, time)
    modifies ctx
    ensures ctx.drawn == old(ctx.drawn)
      + BackgroundDraws(ctx.width, ctx.height, zoom, BackgroundFor(p.backgroundColor, custom),
                        old(ctx.globalAlpha), old(ctx.CurrentShadow()), old(ctx.transform))
      + PatternDraws(g, time, p, ctx.width, ctx.height, old(ctx.CurrentShadow()), old(ctx.transform))
    ensures ctx.transform == old(ctx.transform) && ctx.stack == old(ctx.stack)
  {
    ghost var d0 := ctx.drawn;
    ghost var bgDraws := BackgroundDraws(ctx.width, ctx.height, zoom, BackgroundFor(p.backgroundColor, custom),
                                         ctx.globalAlpha, ctx.CurrentShadow(), ctx.transform);
    ghost var shadow := ctx.CurrentShadow();
    ctx.ClearRect(0.0, 0.0, ctx.width as real, ctx.height as real);
    var bg := BackgroundFor(p.backgroundColor, custom);
    ctx.fillStyle := Gradient(ctx.width, ctx.height, zoom, bg);
    ctx.FillRect(0.0, 0.0, ctx.width as real, ctx.height as real);
    assert ctx.drawn == d0 + bgDraws;
    assert ctx.CurrentShadow() == shadow;
    var audio := Silence;
    ghost var d1 := ctx.drawn;
    match ParsePattern(p.pattern)
    case None =>
    case Some(k) =>
      match k
      case CirclesPattern =>
        Patterns.DrawCirclePattern(ctx, g, time, p, audio);
      case TrianglesPattern =>
        Patterns.DrawTrianglePattern(ctx, g, time, p, audio);
      case LinesPattern =>
        Patterns.DrawLinePattern(ctx, g, time, p, audio);
      case StarsPattern =>
        Patterns.DrawStarPattern(ctx, g, time, p);
      case SpiralPattern =>
        Patterns.DrawSpiral(ctx, g, time, p, audio);
      case FractalPattern =>
        Fractals.DrawFractal(ctx, g, time, p);
  }

  /**
   * drawArt: a missing time is time 0; with no canvas nothing is drawn, and
   * with one the frame is the background followed by the pattern.
   */
  method DrawArt(
    canvas: Option<Context>, g: Trig, time: Option<real>, p: ArtParameters, zoom: real,
    custom: Constants.Background)
    requires g.Valid() && zoom > 0.0
    requires canvas.Some? ==> Renderable(p, canvas.value.width, canvas.value.height, time.GetOr(0.0))
    modifies if canvas.Some? then {canvas.value} else {}
    ensures canvas.Some? ==>
      (canvas.value.drawn == old(canvas.value.drawn)
        + BackgroundDraws(canvas.value.width, canvas.value.height, zoom, BackgroundFor(p.backgroundColor, custom),
                          old(canvas.value.globalAlpha), old(canvas.value.CurrentShadow()), old(canvas.value.transform))
        + PatternDraws(g, time.GetOr(0.0), p, canvas.value.width, canvas.value.height,
                       old(canvas.value.CurrentShadow()), old(canvas.value.transform)))
  {
    var currentTime := time.GetOr(0.0);
    if canvas.None? {
      return;
    }
    DrawFrame(canvas.value, g, currentTime, p, zoom, custom);
  }

  // ----- palettes -----

  /** The custom palettes, by name. */
  type CustomPalettes = map<string, seq<string>>

  const CustomPrefix: string := "custom:"

  /** saveCustomPalette: `{ ...customPalettes, [name]: colors }`. */
  function SaveCustomPalette(cps: CustomPalettes, name: string, colors: seq<string>): (r: CustomPalettes)
  {
    cps[name := colors]
  }

  /** The saved name maps to the saved colours; every other entry is unchanged. */
  lemma SaveKeepsOthers(cps: CustomPalettes, name: string, colors: seq<string>)
    ensures var r := SaveCustomPalette(cps, name, colors);
      && r.Keys == cps.Keys + {name} && r[name] == colors
      && forall n :: n in cps && n != name ==> r[n] == cps[n]
  {
  }

  /**
   * The palette a selection string stands for: `custom:n` the custom palette
   * stored under `n` (undefined when there is none), anything else the key itself.
   */
  function SelectedPalette(v: string, cps: CustomPalettes): (sel: PaletteSel)
  {
    if JsString.StartsWith(v, CustomPrefix) then
      var n := JsString.SliceFrom(v, 7);
      if n in cps then Literal(cps[n]) else Undefined
    else Named(v)
  }

  /** `custom:` followed by a name selects the palette stored under that name. */
  lemma SelectCustom(n: string, cps: CustomPalettes)
    ensures SelectedPalette(CustomPrefix + n, cps) == if n in cps then Literal(cps[n]) else Undefined
  {
    assert (CustomPrefix + n)[..|CustomPrefix|] == CustomPrefix;
    assert (CustomPrefix + n)[7..] == n;
  }

  /** A string without the prefix is stored as a palette key, whatever it is. */
  lemma SelectNamed(v: string, cps: CustomPalettes)
    requires !JsString.StartsWith(v, CustomPrefix)
    ensures SelectedPalette(v, cps) == Named(v)
  {
  }

  /** The six palette keys carry no prefix, so each selects its own table entry. */
  lemma SelectPaletteKey(v: string, cps: CustomPalettes)
    requires v in Constants.PaletteKeyNames
    ensures SelectedPalette(v, cps) == Named(v)
    ensures Constants.ResolvePalette(SelectedPalette(v, cps)).Some?
  {
    if |v| >= |CustomPrefix| {
      assert v == "monochrome";
      assert v[..|CustomPrefix|][1] != CustomPrefix[1];
    }
  }

  /** A palette saved and then selected is the list that was saved. */
  lemma SaveThenSelect(cps: CustomPalettes, name: string, colors: seq<string>)
    ensures SelectedPalette(CustomPrefix + name, SaveCustomPalette(cps, name, colors)) == Literal(colors)
  {
    SelectCustom(name, SaveCustomPalette(cps, name, colors));
  }

  /** The selection string and the parameters, the two pieces of state a palette choice sets. */
  datatype PaletteState = PaletteState(selection: string, parameters: ArtParameters)

  /** handlePaletteChange: record the selection and store the palette it stands for. */
  function HandlePaletteChange(v: string, cps: CustomPalettes, p: ArtParameters): (r: PaletteState)
    ensures r.selection == v
    ensures r.parameters.colorPalette == SelectedPalette(v, cps)
    ensures r.parameters.(colorPalette := p.colorPalette) == p
  {
    PaletteState(v, p.(colorPalette := SelectedPalette(v, cps)))
  }

  // ----- the randomizer -----

  /** The randomizer's list of fractal kinds, in its order. */
  const FractalNames: seq<string> := ["mandelbrot", "julia", "sierpinski", "koch", "dragon", "mandala"]

  /** Each listed fractal name selects a different renderer. */
  lemma FractalNamesSelect(i: nat)
    requires i < |FractalNames|
    ensures Fractals.KindName(Fractals.ParseFractal(FractalNames[i])) == FractalNames[i]
  {
  }

  /** `Math.floor(r * n)` for a draw `r` in [0, 1): an index of a list of `n` entries. */
  function Pick(r: real, n: nat): (k: nat)
    requires 0.0 <= r < 1.0 && n > 0
    ensures k < n
  {
    PickBound(r, n);
    (r * n as real).Floor
  }

  lemma PickBound(r: real, n: nat)
    requires 0.0 <= r < 1.0 && n > 0
    ensures 0.0 <= r * n as real < n as real
  {
    MulStrict(r, 1.0, n as real);
  }

  /** The fourteen calls of `Math.random()`, each in [0, 1). */
  predicate Draws(rs: seq<real>) {
    |rs| == 14 && forall i :: 0 <= i < |rs| ==> 0.0 <= rs[i] < 1.0
  }

  /** The palette keys offered: the six names, then `custom:` and each custom name in key order. */
  function PaletteKeys(customKeys: seq<string>): (r: seq<string>)
    ensures |r| == |Constants.PaletteKeyNames| + |customKeys|
    ensures r[..6] == Constants.PaletteKeyNames
  {
    Constants.PaletteKeyNames + seq(|customKeys|, i requires 0 <= i < |customKeys| => CustomPrefix + customKeys[i])
  }

  /**
   * randomizeParameters: the palette choice and fourteen fresh parameters.
   * `customKeys` is `Object.keys(customPalettes)`; `pi` is `Math.PI`.
   */
  function Randomize(rs: seq<real>, pi: real, customKeys: seq<string>, cps: CustomPalettes): (r: PaletteState)
    requires Draws(rs)
    ensures r.selection in PaletteKeys(customKeys)
    ensures r.parameters.colorPalette == SelectedPalette(r.selection, cps)
    ensures r.parameters.pattern in PatternNames && r.parameters.fractalType in FractalNames
    ensures r.parameters.backgroundColor in Constants.BackgroundKeyNames
    ensures 20 <= r.parameters.shapeCount <= 119 && 10.0 <= r.parameters.shapeSize <= 49.0
    ensures 1.0 <= r.parameters.complexity <= 5.0 && 50 <= r.parameters.fractalIterations <= 249
    ensures 0.5 <= r.parameters.animationSpeed < 3.5 && 0.5 <= r.parameters.rotationSpeed < 3.5
    ensures 0.3 <= r.parameters.opacity < 0.8 && 0.2 <= r.parameters.fractalScale < 1.0
    ensures !r.parameters.audioReactive
  {
    var keys := PaletteKeys(customKeys);
    var choice := keys[Pick(rs[0], |keys|)];
    var params := ArtParameters(
      pattern := PatternNames[Pick(rs[1], 6)],
      colorPalette := SelectedPalette(choice, cps),
      shapeCount := Pick(rs[2], 100) + 20,
      shapeSize := (Pick(rs[3], 40) + 10) as real,
      animationSpeed := rs[4] * 3.0 + 0.5,
      rotationSpeed := rs[5] * 3.0 + 0.5,
      opacity := rs[6] * 0.5 + 0.3,
      complexity := (Pick(rs[7], 5) + 1) as real,
      isAnimated := rs[8] > 0.3,
      audioReactive := false,
      backgroundColor := Constants.BackgroundKeyNames[Pick(rs[9], 8)],
      fractalType := FractalNames[Pick(rs[10], 6)],
      fractalIterations := Pick(rs[11], 200) + 50,
      fractalScale := rs[12] * 0.8 + 0.2,
      fractalAngle := rs[13] * pi);
    PaletteState(choice, params)
  }

  /** `customKeys` lists the custom names, and every custom palette has a colour. */
  predicate CustomKeysOf(customKeys: seq<string>, cps: CustomPalettes) {
    (forall i :: 0 <= i < |customKeys| ==> customKeys[i] in cps && |cps[customKeys[i]]| > 0)
  }

  /** Every palette the randomizer can choose resolves to a non-empty list of colours. */
  lemma RandomPaletteUsable(rs: seq<real>, pi: real, customKeys: seq<string>, cps: CustomPalettes)
    requires Draws(rs) && CustomKeysOf(customKeys, cps)
    ensures Fractals.PaletteUsable(Randomize(rs, pi, customKeys, cps).parameters)
  {
    var r := Randomize(rs, pi, customKeys, cps);
    var keys := PaletteKeys(customKeys);
    var i :| 0 <= i < |keys| && keys[i] == r.selection;
    if i < 6 {
      assert r.selection in Constants.PaletteKeyNames;
      SelectPaletteKey(r.selection, cps);
      assert |Constants.PaletteNamed(r.selection).value| == 5;
    } else {
      var n := customKeys[i - 6];
      assert r.selection == CustomPrefix + n;
      SelectCustom(n, cps);
    }
  }

  /**
   * A randomized frame can be drawn on a non-empty canvas at a time that is
   * not negative, unless the stars pattern met a custom palette.
   */
  lemma RandomFrameRenderable(
    rs: seq<real>, pi: real, customKeys: seq<string>, cps: CustomPalettes, width: nat, height: nat, time: real)
    requires Draws(rs) && CustomKeysOf(customKeys, cps)
    requires width > 0 && height > 0 && time >= 0.0
    requires var r := Randomize(rs, pi, customKeys, cps);
      r.parameters.pattern == "stars" ==> r.selection in Constants.PaletteKeyNames
    ensures Renderable(Randomize(rs, pi, customKeys, cps).parameters, width, height, time)
  {
    var r := Randomize(rs, pi, customKeys, cps);
    RandomPaletteUsable(rs, pi, customKeys, cps);
    if r.parameters.pattern == "stars" {
      SelectPaletteKey(r.selection, cps);
    }
  }

  /**
   * The stars pattern looks its palette up by key, so a custom palette of
   * `#` colours, which the randomizer may pick with it, leaves no colours to draw.
   */
  lemma RandomStarsRejectCustom(
    rs: seq<real>, pi: real, customKeys: seq<string>, cps: CustomPalettes, width: nat, height: nat, time: real)
    requires Draws(rs)
    requires var r := Randomize(rs, pi, customKeys, cps);
      && r.parameters.pattern == "stars" && r.selection !in Constants.PaletteKeyNames
      && JsString.SliceFrom(r.selection, 7) in cps
    requires forall n :: n in cps ==> cps[n] != [] && cps[n][0] != [] && cps[n][0][0] == '#'
    ensures !Renderable(Randomize(rs, pi, customKeys, cps).parameters, width, height, time)
  {
    var r := Randomize(rs, pi, customKeys, cps);
    var keys := PaletteKeys(customKeys);
    var i :| 0 <= i < |keys| && keys[i] == r.selection;
    assert i >= 6;
    var n := customKeys[i - 6];
    assert r.selection == CustomPrefix + n;
    SelectCustom(n, cps);
    assert (CustomPrefix + n)[7..] == n;
    Patterns.StarRejectsColorLiterals(cps[n]);
  }
}
