/**
 * The escape-time renderers drawMandelbrotFractal and drawJuliaFractal
 * (lib/fractals.ts). For every pixel they iterate `z <- z^2 + c` until
 * `|z|^2 > 16` or the iteration budget runs out, choose a palette colour from
 * the count, and write the colour's channels and the opacity into an RGBA
 * buffer, which is then put on the canvas in one piece.
 */
module Escape {
  import opened Types
  import opened Canvas
  import JsString
  import Constants

  datatype Complex = Complex(re: real, im: real)

  /** One step `z <- z^2 + c`, in the source's component form. */
  function Next(z: Complex, c: Complex): Complex {
    Complex(z.re * z.re - z.im * z.im + c.re, 2.0 * z.re * z.im + c.im)
  }

  /** The bailout test `re^2 + im^2 > 16`. */
  predicate Escaped(z: Complex) {
    z.re * z.re + z.im * z.im > 16.0
  }

  /** The `k`-th iterate of `z <- z^2 + c` from `z`. */
  function Orbit(z: Complex, c: Complex, k: nat): Complex
    decreases k
  {
    if k == 0 then z else Orbit(Next(z, c), c, k - 1)
  }

  /** The number of steps from `z` that stay inside the bailout radius, at most `fuel`. */
  function Steps(z: Complex, c: Complex, fuel: nat): (n: nat)
    ensures n <= fuel
    decreases fuel
  {
    if fuel == 0 then 0
    else
      var z' := Next(z, c);
      if Escaped(z') then 0 else 1 + Steps(z', c, fuel - 1)
  }

  /** The `n` that `while (n < fractalIterations)` ends with; the loop does not run for a budget <= 0. */
  function EscapeCount(z: Complex, c: Complex, iterations: int): (n: nat)
    ensures iterations > 0 ==> n <= iterations
    ensures iterations <= 0 ==> n == 0
  {
    if iterations > 0 then Steps(z, c, iterations) else 0
  }

  /** `Steps` counts the iterates before the first one outside the radius. */
  lemma {:induction false} StepsFirstEscape(z: Complex, c: Complex, fuel: nat)
    decreases fuel
    ensures forall k :: 1 <= k <= Steps(z, c, fuel) ==> !Escaped(Orbit(z, c, k))
    ensures Steps(z, c, fuel) < fuel ==> Escaped(Orbit(z, c, Steps(z, c, fuel) + 1))
  {
    if fuel > 0 {
      var z' := Next(z, c);
      assert Orbit(z, c, 1) == Orbit(z', c, 0) == z';
      if !Escaped(z') {
        var m := Steps(z', c, fuel - 1);
        StepsFirstEscape(z', c, fuel - 1);
        assert Steps(z, c, fuel) == m + 1;
        forall k | 1 <= k <= m + 1
          ensures !Escaped(Orbit(z, c, k))
        {
          assert Orbit(z, c, k) == Orbit(z', c, k - 1);
        }
        assert Orbit(z, c, m + 2) == Orbit(z', c, m + 1);
      }
    }
  }

  /**
   * The count is the index of the first escaping iterate: every iterate up
   * to `n` stays inside, iterate `n + 1` escapes when `n < it`, and `n == it`
   * exactly when none of the `it` iterates escapes.
   */
  lemma EscapeCountIsFirstEscape(z: Complex, c: Complex, iterations: int)
    requires iterations > 0
    ensures var n := EscapeCount(z, c, iterations);
      && 0 <= n <= iterations
      && (forall k :: 1 <= k <= n ==> !Escaped(Orbit(z, c, k)))
      && (n < iterations ==> Escaped(Orbit(z, c, n + 1)))
      && (n == iterations <==> forall k :: 1 <= k <= iterations ==> !Escaped(Orbit(z, c, k)))
  {
    var n := EscapeCount(z, c, iterations);
    assert n == Steps(z, c, iterations);
    StepsFirstEscape(z, c, iterations);
    if n < iterations {
      assert Escaped(Orbit(z, c, n + 1));
    }
  }

  /** The escape loop of one pixel, starting from `z0`. */
  method EscapeTime(z0: Complex, c: Complex, iterations: int) returns (n: int)
    ensures n == EscapeCount(z0, c, iterations)
  {
    var z := z0;
    n := 0;
    while n < iterations
      invariant 0 <= n && (iterations > 0 ==> n <= iterations) && (iterations <= 0 ==> n == 0)
      invariant EscapeCount(z0, c, iterations) == n + (if iterations > 0 then Steps(z, c, iterations - n) else 0)
    {
      z := Next(z, c);
      if Escaped(z) {
        break;
      }
      n := n + 1;
    }
  }

  // ----- colours -----

  /** `floor(a / b)` of two integers is their integer quotient. */
  lemma FloorOfQuotient(a: int, b: int)
    requires a >= 0 && b > 0
    ensures (a as real / b as real).Floor == a / b
  {
    var q, r := a / b, a % b;
    assert a == q * b + r;
    var f := r as real / b as real;
    assert f * b as real == r as real;
    assert 0.0 <= f < 1.0;
    assert a as real / b as real == q as real + f;
  }

  lemma MulMonotone(a: int, b: int, c: int)
    requires a <= b && c >= 0
    ensures a * c <= b * c
  {
    assert b * c - a * c == (b - a) * c;
  }

  /** The scaled count `floor((n / it) * L)` is `n * L / it`: below `L` for `n < it`, `L` itself for `n == it`. */
  lemma ScaledCount(n: nat, iterations: int, length: nat)
    requires 0 < iterations && n <= iterations && length > 0
    ensures var f := ((n as real / iterations as real) * length as real).Floor;
      && f == n * length / iterations
      && (n < iterations ==> f < length)
      && (n == iterations ==> f == length)
  {
    assert (n as real / iterations as real) * length as real == (n * length) as real / iterations as real;
    FloorOfQuotient(n * length, iterations);
    var q := n * length / iterations;
    assert q * iterations <= n * length;
    if n < iterations {
      MulMonotone(n, iterations - 1, length);
      if q >= length {
        MulMonotone(length, q, iterations);
      }
    } else {
      DivModUnique(n * length, iterations, length, 0);
    }
  }

  /**
   * `Math.floor((n / fractalIterations) * colors.length) % colors.length`.
   * The count never exceeds a positive budget and is 0 for any other.
   */
  function ColorIndex(n: nat, iterations: int, length: nat): (k: nat)
    requires iterations != 0 && length > 0
    requires iterations > 0 ==> n <= iterations
    requires iterations < 0 ==> n == 0
    ensures k < length
    ensures n == iterations ==> k == 0
    ensures n < iterations ==> k == n * length / iterations
  {
    var f := ((n as real / iterations as real) * length as real).Floor;
    if iterations > 0 then
      ScaledCount(n, iterations, length);
      if n < iterations then
        DivModUnique(f, length, 0, f);
        f % length
      else
        DivModUnique(f, length, 1, 0);
        f % length
    else
      assert f == 0;
      f % length
  }

  /** `parseInt(color.slice(1), 16)`; a NaN, as an operand of `>>` or `&`, counts as 0. */
  function Rgb(color: string): int {
    match JsString.ParseHex(JsString.SliceFrom(color, 1))
    case Some(v) => v
    case None => 0
  }

  function Pow2(k: nat): (p: nat)
    ensures p >= 1
  {
    if k == 0 then 1 else 2 * Pow2(k - 1)
  }

  /**
   * `(rgb >> shift) & 255`: bits `shift .. shift + 7` of the 32-bit two's
   * complement form of `rgb`, which are those of `rgb` itself.
   */
  function Channel(rgb: int, shift: nat): (b: int)
    ensures 0 <= b <= 255
  {
    (rgb / Pow2(shift)) % 256
  }

  /** The distance between two integers. */
  function Dist(x: int, y: int): nat {
    if x < y then y - x else x - y
  }

  /** Storing an integer into a `Uint8ClampedArray`: the byte nearest the value. */
  function Clamp8(v: int): (b: int)
    ensures 0 <= b <= 255
    ensures forall c :: 0 <= c <= 255 ==> Dist(v, b) <= Dist(v, c)
  {
    if v < 0 then 0 else if v > 255 then 255 else v
  }

  lemma MulAtLeast(m: int, d: int)
    requires m >= 1 && d > 0
    ensures m * d >= d
  {
  }

  /** The quotient and remainder of `a` by `d` are the only `q`, `r` with `a == q * d + r`, `0 <= r < d`. */
  lemma DivModUnique(a: int, d: int, q: int, r: int)
    requires d > 0 && 0 <= r < d && a == q * d + r
    ensures a / d == q && a % d == r
  {
    var q', r' := a / d, a % d;
    assert a == q' * d + r' && 0 <= r' < d;
    if q' < q {
      MulAtLeast(q - q', d);
    } else if q' > q {
      MulAtLeast(q' - q, d);
    }
  }

  /** The value of a digit string is that of its head shifted past its tail, plus the tail's. */
  lemma {:induction false} HexValueAppend(a: string, b: string)
    requires forall i :: 0 <= i < |a| ==> JsString.HexDigitValue(a[i]) >= 0
    requires forall i :: 0 <= i < |b| ==> JsString.HexDigitValue(b[i]) >= 0
    ensures forall i :: 0 <= i < |a + b| ==> JsString.HexDigitValue((a + b)[i]) >= 0
    ensures JsString.HexValue(a + b) == JsString.HexValue(a) * JsString.Pow16(|b|) + JsString.HexValue(b)
  {
    if b == [] {
      assert a + b == a;
    } else {
      var b' := b[..|b| - 1];
      var d := JsString.HexDigitValue(b[|b| - 1]);
      HexValueAppend(a, b');
      assert (a + b)[..|a + b| - 1] == a + b';
      assert (a + b)[|a + b| - 1] == b[|b| - 1];
      var ha, hb', p := JsString.HexValue(a), JsString.HexValue(b'), JsString.Pow16(|b'|);
      assert JsString.HexValue(a + b) == 16 * (ha * p + hb') + d;
      assert JsString.HexValue(b) == 16 * hb' + d;
      assert JsString.Pow16(|b|) == 16 * p;
      ScaleBy16(ha, p);
    }
  }

  lemma ScaleBy16(x: int, p: int)
    ensures x * (16 * p) == 16 * (x * p)
  {
  }

  /** A `#RRGGBB` colour parses to the value of its six digits. */
  lemma HexColorDigits(color: string)
    requires Constants.IsHexColor(color)
    ensures forall i :: 0 <= i < 6 ==> JsString.HexDigitValue(color[1..][i]) >= 0
    ensures Rgb(color) == JsString.HexValue(color[1..])
  {
    var s := color[1..];
    assert JsString.SliceFrom(color, 1) == s;
    assert forall i :: 0 <= i < 6 ==> JsString.HexDigitValue(s[i]) >= 0;
    assert JsString.HexRun(s) == 6;
    JsString.ParseHexDigits(s);
  }

  /** The value of the two hexadecimal digits `hi lo`: `16 * hi + lo`. */
  function HexPair(hi: char, lo: char): (v: int)
    ensures JsString.HexDigitValue(hi) >= 0 && JsString.HexDigitValue(lo) >= 0 ==> 0 <= v < 256
  {
    16 * JsString.HexDigitValue(hi) + JsString.HexDigitValue(lo)
  }

  lemma HexValuePair(t: string)
    requires |t| == 2 && JsString.HexDigitValue(t[0]) >= 0 && JsString.HexDigitValue(t[1]) >= 0
    ensures forall i :: 0 <= i < |t| ==> JsString.HexDigitValue(t[i]) >= 0
    ensures JsString.HexValue(t) == HexPair(t[0], t[1])
  {
    var h := t[..1];
    assert h[..0] == [] && h[0] == t[0];
    assert JsString.HexValue(h) == 16 * JsString.HexValue(h[..0]) + JsString.HexDigitValue(t[0]);
    assert JsString.HexValue(t) == 16 * JsString.HexValue(h) + JsString.HexDigitValue(t[1]);
  }

  /** A `#RRGGBB` colour parses to the value of its six digits, pair by pair. */
  lemma HexColorValue(color: string)
    requires Constants.IsHexColor(color)
    ensures Rgb(color) == HexPair(color[1], color[2]) * 65536 + HexPair(color[3], color[4]) * 256
                          + HexPair(color[5], color[6])
  {
    var s := color[1..];
    HexColorDigits(color);
    SixDigits(s);
    assert s[0] == color[1] && s[1] == color[2] && s[2] == color[3];
    assert s[3] == color[4] && s[4] == color[5] && s[5] == color[6];
  }

  /** Six hexadecimal digits are worth their three pairs, the first one most. */
  lemma SixDigits(s: string)
    requires |s| == 6 && forall i :: 0 <= i < |s| ==> JsString.HexDigitValue(s[i]) >= 0
    ensures JsString.HexValue(s) == HexPair(s[0], s[1]) * 65536 + HexPair(s[2], s[3]) * 256 + HexPair(s[4], s[5])
  {
    var r, g, b := s[0..2], s[2..4], s[4..6];
    assert s == r + g + b;
    DigitsOfSlice(s, 0, 2);
    DigitsOfSlice(s, 2, 4);
    DigitsOfSlice(s, 4, 6);
    HexValuePair(r);
    AppendPair(r, g);
    AppendPair(r + g, b);
    assert r[0] == s[0] && r[1] == s[1] && g[0] == s[2] && g[1] == s[3] && b[0] == s[4] && b[1] == s[5];
  }

  /** Appending two digits shifts the value by a byte and adds the pair. */
  lemma AppendPair(a: string, t: string)
    requires forall i :: 0 <= i < |a| ==> JsString.HexDigitValue(a[i]) >= 0
    requires |t| == 2 && forall i :: 0 <= i < |t| ==> JsString.HexDigitValue(t[i]) >= 0
    ensures forall i :: 0 <= i < |a + t| ==> JsString.HexDigitValue((a + t)[i]) >= 0
    ensures JsString.HexValue(a + t) == JsString.HexValue(a) * 256 + HexPair(t[0], t[1])
  {
    HexValueAppend(a, t);
    HexValuePair(t);
    assert JsString.Pow16(2) == 256;
  }

  lemma DigitsOfSlice(s: string, lo: nat, hi: nat)
    requires lo <= hi <= |s| && forall i :: 0 <= i < |s| ==> JsString.HexDigitValue(s[i]) >= 0
    ensures forall i :: 0 <= i < hi - lo ==> JsString.HexDigitValue(s[lo..hi][i]) >= 0
  {
  }

  /** The three channels of `r * 65536 + g * 256 + b` are `r`, `g` and `b`. */
  lemma ChannelsOfBytes(v: int, r: int, g: int, b: int)
    requires 0 <= r < 256 && 0 <= g < 256 && 0 <= b < 256 && v == r * 65536 + g * 256 + b
    ensures Channel(v, 16) == r && Channel(v, 8) == g && Channel(v, 0) == b
  {
    assert Pow2(16) == 65536 && Pow2(8) == 256 && Pow2(0) == 1;
    DivModUnique(v, 65536, r, g * 256 + b);
    DivModUnique(r, 256, 0, r);
    DivModUnique(v, 256, r * 256 + g, b);
    DivModUnique(r * 256 + g, 256, r, g);
    DivModUnique(v, 1, v, 0);
  }

  /**
   * For a `#RRGGBB` colour the three channels are the values of its three
   * digit pairs.
   */
  lemma HexColorChannels(color: string)
    requires Constants.IsHexColor(color)
    ensures Channel(Rgb(color), 16) == HexPair(color[1], color[2])
    ensures Channel(Rgb(color), 8) == HexPair(color[3], color[4])
    ensures Channel(Rgb(color), 0) == HexPair(color[5], color[6])
  {
    HexColorValue(color);
    ChannelsOfBytes(Rgb(color), HexPair(color[1], color[2]), HexPair(color[3], color[4]), HexPair(color[5], color[6]));
  }

  /** `Math.floor(255 * opacity)`, stored clamped; exactly the floor for an opacity in [0, 1]. */
  function Alpha(opacity: real): (a: int)
    ensures 0 <= a <= 255
    ensures 0.0 <= opacity <= 1.0 ==> a == (255.0 * opacity).Floor
    ensures opacity == 1.0 ==> a == 255
  {
    var f := (255.0 * opacity).Floor;
    assert 0.0 <= opacity <= 1.0 ==> 0 <= f <= 255 by {
      if 0.0 <= opacity <= 1.0 {
        assert 0.0 <= 255.0 * opacity <= 255.0;
      }
    }
    Clamp8(f)
  }

  // ----- the pixel buffer -----

  datatype Kind = Mandelbrot | Julia

  /** Everything an escape-time frame reads. */
  datatype View = View(
    kind: Kind, g: Trig, time: real, width: nat, height: nat,
    iterations: int, colors: seq<string>, opacity: real)
  {
    /** `createImageData` needs a non-empty canvas, and the colour index needs a budget and a palette. */
    predicate Valid() {
      width > 0 && height > 0 && iterations != 0 && |colors| > 0
    }
  }

  function MinR(a: real, b: real): real {
    if a <= b then a else b
  }

  /** The start value and the constant of pixel `(x, y)`. */
  function Seeds(v: View, x: nat, y: nat): (zc: (Complex, Complex))
    requires v.Valid()
    ensures v.kind == Mandelbrot ==> zc.0 == zc.1
  {
    var g := v.g;
    var w, h := v.width as real, v.height as real;
    match v.kind
    case Mandelbrot =>
      var cx := -0.5 + g.sin(v.time * 0.001) * 0.1;
      var cy := 0.0 + g.cos(v.time * 0.001) * 0.1;
      var zoom := (4.0 / MinR(w, h)) * (1.0 + g.sin(v.time * 0.002) * 0.2);
      var p := Complex((x as real - w / 2.0) * zoom + cx, (y as real - h / 2.0) * zoom + cy);
      (p, p)
    case Julia =>
      var zoom := 4.0 / MinR(w, h);
      (Complex((x as real - w / 2.0) * zoom, (y as real - h / 2.0) * zoom),
       Complex(g.sin(v.time * 0.001) * 0.8, g.cos(v.time * 0.001) * 0.8))
  }

  function PixelCount(v: View, x: nat, y: nat): nat
    requires v.Valid()
  {
    var zc := Seeds(v, x, y);
    EscapeCount(zc.0, zc.1, v.iterations)
  }

  function PixelColor(v: View, x: nat, y: nat): string
    requires v.Valid()
  {
    v.colors[ColorIndex(PixelCount(v, x, y), v.iterations, |v.colors|)]
  }

  /** Channel `k` of pixel `(x, y)`: red, green, blue, then alpha `floor(255 * opacity)`, all stored clamped. */
  function PixelByte(v: View, x: nat, y: nat, k: nat): (b: int)
    requires v.Valid() && k < 4
    ensures 0 <= b <= 255
  {
    var rgb := Rgb(PixelColor(v, x, y));
    if k == 0 then Clamp8(Channel(rgb, 16))
    else if k == 1 then Clamp8(Channel(rgb, 8))
    else if k == 2 then Clamp8(Channel(rgb, 0))
    else Alpha(v.opacity)
  }

  /** The last channel of the last pixel is the last entry of a `4 * w * h` buffer. */
  lemma RowMajorBound(w: nat, h: nat, x: nat, y: nat)
    requires x < w && y < h
    ensures (y * w + x) * 4 + 3 < 4 * w * h
  {
    MulMonotone(y, h - 1, w);
    assert (h - 1) * w + w == h * w;
    assert 4 * w * h == 4 * (h * w);
  }

  /** Distinct pixels of a row of width `w` have distinct row-major positions. */
  lemma RowMajorInjective(w: nat, x: nat, y: nat, x': nat, y': nat)
    requires x < w && x' < w && (x != x' || y != y')
    ensures y * w + x != y' * w + x'
  {
    if y < y' {
      MulAtLeast(y' - y, w);
      assert (y' - y) * w == y' * w - y * w;
    } else if y' < y {
      MulAtLeast(y - y', w);
      assert (y - y') * w == y * w - y' * w;
    }
  }

  /** `(y * width + x) * 4 + k`: where channel `k` of pixel `(x, y)` is stored; always inside the buffer. */
  function Idx(w: nat, h: nat, x: nat, y: nat, k: nat): (i: int)
    requires x < w && y < h && k < 4
    ensures 0 <= i < 4 * w * h
  {
    RowMajorBound(w, h, x, y);
    (y * w + x) * 4 + k
  }

  /** The whole buffer: entry `i` is channel `i mod 4` of pixel `i / 4`, stored row by row. */
  function Image(v: View): (pixels: seq<int>)
    requires v.Valid()
    ensures |pixels| == 4 * v.width * v.height
  {
    seq(4 * v.width * v.height, i requires 0 <= i < 4 * v.width * v.height => PixelByte(v, (i / 4) % v.width, (i / 4) / v.width, i % 4))
  }

  /** The channel and the pixel's coordinates can be read back from the index. */
  lemma PixelIndex(w: nat, h: nat, x: nat, y: nat, k: nat)
    requires x < w && y < h && k < 4
    ensures var i := Idx(w, h, x, y, k);
      && i % 4 == k && (i / 4) % w == x && (i / 4) / w == y
  {
    var q := y * w + x;
    DivModUnique(q * 4 + k, 4, q, k);
    DivModUnique(q, w, y, x);
  }

  lemma QuotientBelow(q: nat, w: nat, h: nat)
    requires w > 0 && q < w * h
    ensures q / w < h
  {
    if q / w >= h {
      MulMonotone(h, q / w, w);
    }
  }

  /** Every entry of the buffer is a channel of a pixel of the canvas. */
  lemma IndexPixel(w: nat, h: nat, i: int) returns (x: nat, y: nat, k: nat)
    requires 0 <= i < 4 * w * h
    ensures x < w && y < h && k < 4 && Idx(w, h, x, y, k) == i
    ensures w > 0 && x == i / 4 % w && y == i / 4 / w && k == i % 4
  {
    var q := i / 4;
    k := i % 4;
    assert i == q * 4 + k;
    assert 4 * w * h == (w * h) * 4;
    assert w > 0;
    QuotientBelow(q, w, h);
    x, y := q % w, q / w;
    assert q == y * w + x;
  }

  /** The four channels of distinct pixels occupy disjoint runs of the buffer. */
  lemma PixelsDisjoint(w: nat, h: nat, x: nat, y: nat, x': nat, y': nat, k: nat)
    requires x < w && y < h && x' < w && y' < h && k < 4 && (x != x' || y != y')
    ensures Idx(w, h, x', y', k) < Idx(w, h, x, y, 0) || Idx(w, h, x, y, 3) < Idx(w, h, x', y', k)
  {
    RowMajorInjective(w, x, y, x', y');
  }

  /** The four writes `data[i] = r; data[i + 1] = g; data[i + 2] = b; data[i + 3] = a`. */
  method WriteChannels(data: array<int>, i: int, r: int, g: int, b: int, a: int)
    requires 0 <= i && i + 3 < data.Length
    modifies data
    ensures data[i] == r && data[i + 1] == g && data[i + 2] == b && data[i + 3] == a
    ensures forall j :: 0 <= j < data.Length && (j < i || i + 3 < j) ==> data[j] == old(data[j])
  {
    data[i] := r;
    data[i + 1] := g;
    data[i + 2] := b;
    data[i + 3] := a;
  }

  /** Pixel `(x, y)`: the escape loop, the colour lookup and the four channel writes. */
  method RenderPixel(data: array<int>, v: View, x: nat, y: nat)
    requires v.Valid() && x < v.width && y < v.height && data.Length == 4 * v.width * v.height
    modifies data
    ensures forall k :: 0 <= k < 4 ==> data[Idx(v.width, v.height, x, y, k)] == PixelByte(v, x, y, k)
    ensures forall x', y', k :: 0 <= x' < v.width && 0 <= y' < v.height && 0 <= k < 4 && (x' != x || y' != y) ==>
      data[Idx(v.width, v.height, x', y', k)] == old(data[Idx(v.width, v.height, x', y', k)])
  {
    var w, h := v.width, v.height;
    var zc := Seeds(v, x, y);
    var n := EscapeTime(zc.0, zc.1, v.iterations);
    var color := v.colors[ColorIndex(n, v.iterations, |v.colors|)];
    assert color == PixelColor(v, x, y);
    var rgb := Rgb(color);
    var pixelIndex := (y * w + x) * 4;
    assert pixelIndex == Idx(w, h, x, y, 0) && pixelIndex + 1 == Idx(w, h, x, y, 1);
    assert pixelIndex + 2 == Idx(w, h, x, y, 2) && pixelIndex + 3 == Idx(w, h, x, y, 3);
    forall x', y', k | 0 <= x' < w && 0 <= y' < h && 0 <= k < 4 && (x' != x || y' != y)
      ensures Idx(w, h, x', y', k) < pixelIndex || pixelIndex + 3 < Idx(w, h, x', y', k)
    {
      PixelsDisjoint(w, h, x, y, x', y', k);
    }
    WriteChannels(data, pixelIndex, Clamp8(Channel(rgb, 16)), Clamp8(Channel(rgb, 8)), Clamp8(Channel(rgb, 0)),
                  Alpha(v.opacity));
    assert data[pixelIndex] == PixelByte(v, x, y, 0) && data[pixelIndex + 1] == PixelByte(v, x, y, 1);
    assert data[pixelIndex + 2] == PixelByte(v, x, y, 2) && data[pixelIndex + 3] == PixelByte(v, x, y, 3);
  }

  /** The inner loop: every pixel of column `x`, top to bottom. */
  method RenderColumn(data: array<int>, v: View, x: nat)
    requires v.Valid() && x < v.width && data.Length == 4 * v.width * v.height
    modifies data
    ensures forall y, k :: 0 <= y < v.height && 0 <= k < 4 ==>
      data[Idx(v.width, v.height, x, y, k)] == PixelByte(v, x, y, k)
    ensures forall x', y, k :: 0 <= x' < v.width && 0 <= y < v.height && 0 <= k < 4 && x' != x ==>
      data[Idx(v.width, v.height, x', y, k)] == old(data[Idx(v.width, v.height, x', y, k)])
  {
    var y := 0;
    while y < v.height
      invariant 0 <= y <= v.height
      invariant forall y', k :: 0 <= y' < y && 0 <= k < 4 ==>
        data[Idx(v.width, v.height, x, y', k)] == PixelByte(v, x, y', k)
      invariant forall x', y', k :: 0 <= x' < v.width && 0 <= y' < v.height && 0 <= k < 4 && x' != x ==>
        data[Idx(v.width, v.height, x', y', k)] == old(data[Idx(v.width, v.height, x', y', k)])
    {
      RenderPixel(data, v, x, y);
      y := y + 1;
    }
  }

  /** The outer loop: every column, left to right. */
  method RenderColumns(data: array<int>, v: View)
    requires v.Valid() && data.Length == 4 * v.width * v.height
    modifies data
    ensures forall x, y, k :: 0 <= x < v.width && 0 <= y < v.height && 0 <= k < 4 ==>
      data[Idx(v.width, v.height, x, y, k)] == PixelByte(v, x, y, k)
  {
    var x := 0;
    while x < v.width
      invariant 0 <= x <= v.width
      invariant forall x', y, k :: 0 <= x' < x && 0 <= y < v.height && 0 <= k < 4 ==>
        data[Idx(v.width, v.height, x', y, k)] == PixelByte(v, x', y, k)
    {
      RenderColumn(data, v, x);
      x := x + 1;
    }
  }

  /** A buffer holding every channel of every pixel at its index is the frame's image. */
  lemma BufferIsImage(data: seq<int>, v: View)
    requires v.Valid() && |data| == 4 * v.width * v.height
    requires forall x, y, k :: 0 <= x < v.width && 0 <= y < v.height && 0 <= k < 4 ==>
      data[Idx(v.width, v.height, x, y, k)] == PixelByte(v, x, y, k)
    ensures data == Image(v)
  {
    forall i | 0 <= i < |data|
      ensures data[i] == Image(v)[i]
    {
      var x, y, k := IndexPixel(v.width, v.height, i);
      assert data[Idx(v.width, v.height, x, y, k)] == PixelByte(v, x, y, k);
    }
  }

  /** A frame: fill a fresh buffer pixel by pixel, then put it on the canvas. */
  method RenderEscape(ctx: Context, v: View)
    requires v.Valid() && v.width == ctx.width && v.height == ctx.height
    modifies ctx`drawn
    ensures ctx.drawn == old(ctx.drawn) + [ImagePut(Image(v), ctx.width, ctx.height)]
  {
    var data := new int[4 * v.width * v.height](_ => 0);
    RenderColumns(data, v);
    BufferIsImage(data[..], v);
    ctx.PutImageData(data[..]);
  }

  /** The view of drawMandelbrotFractal or drawJuliaFractal for a context and its parameters. */
  function MakeView(kind: Kind, g: Trig, time: real, width: nat, height: nat, p: ArtParameters, colors: seq<string>): (v: View)
    ensures v.width == width && v.height == height && v.colors == colors
    ensures v.iterations == p.fractalIterations && v.opacity == p.opacity
  {
    View(kind, g, time, width, height, p.fractalIterations, colors, p.opacity)
  }

  /**
   * drawMandelbrotFractal and drawJuliaFractal. They fail on an empty canvas,
   * a zero budget, a palette that is not there and an empty palette.
   */
  method DrawEscapeFractal(ctx: Context, kind: Kind, g: Trig, time: real, p: ArtParameters)
    requires ctx.width > 0 && ctx.height > 0 && p.fractalIterations != 0
    requires Constants.ResolvePalette(p.colorPalette).Some? && |Constants.ResolvePalette(p.colorPalette).value| > 0
    modifies ctx`drawn
    ensures ctx.drawn == old(ctx.drawn) + [ImagePut(Image(
      MakeView(kind, g, time, ctx.width, ctx.height, p, Constants.ResolvePalette(p.colorPalette).value)),
      ctx.width, ctx.height)]
  {
    var colors := Constants.ResolvePalette(p.colorPalette).value;
    RenderEscape(ctx, MakeView(kind, g, time, ctx.width, ctx.height, p, colors));
  }

  /**
   * Pixel `(x, y)` of a frame sits at `(y * width + x) * 4`; a pixel that
   * never escapes gets the palette's first colour.
   */
  lemma ImagePixel(v: View, x: nat, y: nat, k: nat)
    requires v.Valid() && x < v.width && y < v.height && k < 4
    ensures Image(v)[Idx(v.width, v.height, x, y, k)] == PixelByte(v, x, y, k)
    ensures PixelCount(v, x, y) == v.iterations ==> PixelColor(v, x, y) == v.colors[0]
  {
    PixelIndex(v.width, v.height, x, y, k);
  }

  /**
   * A pixel whose colour is `#RRGGBB` holds that colour's three digit pairs
   * and the clamped `floor(255 * opacity)`.
   */
  lemma HexPixel(v: View, x: nat, y: nat)
    requires v.Valid() && Constants.IsHexColor(PixelColor(v, x, y))
    ensures var c := PixelColor(v, x, y);
      && PixelByte(v, x, y, 0) == HexPair(c[1], c[2])
      && PixelByte(v, x, y, 1) == HexPair(c[3], c[4])
      && PixelByte(v, x, y, 2) == HexPair(c[5], c[6])
      && PixelByte(v, x, y, 3) == Alpha(v.opacity)
  {
    HexColorChannels(PixelColor(v, x, y));
  }

  /** Every colour of a named palette is `#RRGGBB`, so every pixel drawn with it is. */
  lemma NamedPalettePixel(v: View, x: nat, y: nat, key: Constants.PaletteKey)
    requires v.Valid() && v.colors == Constants.Palette(key)
    ensures Constants.IsHexColor(PixelColor(v, x, y))
  {
    Constants.PalettesWellFormed(key);
  }
}
