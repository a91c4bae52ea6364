# Algorithmic Art Generator — a Dafny model of the drawing core

This project models the discrete skeleton of the Algorithmic Art Generator, a
web page that draws animated generative art on an HTML canvas.

## What is modelled

- **Configuration.** One `ArtParameters` record drives every frame. It holds
  the pattern name, the colour palette, the shape count and size, speeds,
  opacity, the fractal kind, budget and scale, and the background key.
- **Palettes and backgrounds.** The six named palettes and the eight
  backgrounds are constant tables (`Constants`).
  - A palette selection is a key, a literal list of colours (a custom
    palette), or `undefined`, which is what looking up a missing custom
    palette yields.
- **The canvas** (`Canvas`). The 2-D context is a class. It has the style
  attributes the renderers assign, the current path, the transform, the
  save/restore stack and a log of every drawing operation.
  - Each logged operation records the attributes it reads.
  - Every renderer is proved to append exactly a described sequence of
    operations to that log.
- **The five shape patterns** (`Patterns`): circles, triangles, lines,
  spiral and stars.
  - Each is a loop of `shapeCount` steps, proved against a function that
    lists the frame's operations.
  - The audio factors (`volumeFactor`, `colorOffset`) are neutral when the
    pattern is not audio-reactive.
- **The six fractals.**
  - Mandelbrot and Julia (`Escape`) fill a pixel buffer in row-major order.
    The escape-time loop is proved to count the steps before the orbit
    first leaves the radius-4 disc. The colour is decoded from its `#rrggbb`
    text through `parseInt(…, 16)`, `>>` and `&`.
  - Sierpinski, Koch and Dragon (`Curves`) are recursive methods on the
    context. Each is proved to draw the strokes or triangles that a recursive
    specification lists. The curves are proved to be connected chains of
    4^depth (Koch side) or 2^depth (dragon) segments.
  - The mandala (`Mandala`) draws eight arms and four rings of linked
    circles.
  - `drawFractal` (`Fractals`) dispatches on the fractal name. An unknown
    name draws the Mandelbrot set.
- **The page** (`Page`).
  - `drawArt` clears the canvas, fills a radial gradient of the chosen
    background and dispatches on the pattern name; an unknown pattern draws
    nothing.
  - Choosing and saving custom palettes.
  - The randomizer.
- **Video capture** (`Video`): the saveVideo frame counter.
- **Audio** (`Audio`): the per-tick reduction of the 256-bucket spectrum to
  a volume and a dominant frequency.
- **The gallery store** (`Gallery`).
- **The palette editor** (`PaletteEditor`).

Two consequences of the code, both proved:

- The background rectangle is filled with whatever `globalAlpha` and shadow
  the previous frame left on the context. `drawArt` never resets them.
- The randomizer can pick the star pattern together with a custom palette.
  The star pattern then finds no colours, because it looks the palette up
  with the array itself as the key (`Page.RandomStarsRejectCustom`). The
  page itself would throw at that point.

Trigonometric functions, `Math.sqrt` and `π` are uninterpreted parameters
(`Canvas.Trig`). All other arithmetic is exact.

## Model

| member | source | states |
|---|---|---|
| Constants.ParseKey | lib/constants.ts:21 | a parsed palette key has exactly the given name, and a name outside the six keys parses to nothing |
| Constants.PaletteNamed | lib/constants.ts:1-8 | looking up `colorPalettes` succeeds exactly for the six keys, each giving five colours |
| Constants.ResolvePalette | lib/fractals.ts:10-12 | a literal palette is used as given; a key resolves to colours exactly when it is one of the six (five colours); `undefined` resolves to nothing |
| Constants.PalettesWellFormed | lib/constants.ts:1-8 | every named palette has five `#rrggbb` colours |
| Constants.BackgroundsWellFormed | lib/constants.ts:10-19 | both colours of every background are `#rrggbb` colours |
| Constants.BackgroundKeys | lib/constants.ts:10-19 | the background keys are exactly the eight names, and the `custom` entry equals `dark` |
| Constants.PaletteKeysExact | lib/constants.ts:1-8 | the six key names are distinct, and name and parse are inverse |
| JsString.PrefixRoundTrip | app/page.tsx:115-116 | a string made of a prefix and a rest starts with that prefix (`StartsWith`), and slicing the prefix's length off (`SliceFrom`) gives back the rest |
| JsString.StartsWithSplit | app/page.tsx:115-116 | `StartsWith(s, p)` holds exactly when `s` is at least as long as `p` and is `p` followed by the slice of `s` past the length of `p` |
| JsString.Trim | components/color-palette-editor.tsx:31-32 | the trimmed name is empty exactly when every character is white space; otherwise it is the contiguous middle with no white space at either end |
| JsString.TrimIdempotent | components/color-palette-editor.tsx:31-32 | trimming an already trimmed name changes nothing |
| JsString.ParseHex | lib/fractals.ts:43 | text that starts with neither a hex digit, white space nor a sign parses to NaN |
| JsString.ParseHexDigits | lib/fractals.ts:43 | `parseInt(s, 16)` of a non-empty run of hex digits is their base-16 value |
| JsString.HexValueBound | lib/fractals.ts:43 | `k` hex digits denote a value below 16^k |
| Patterns.StarPalette | lib/patterns.ts:141 | a named selection gives the same colours as every other pattern's lookup |
| Patterns.StarRejectsColorLiterals | lib/patterns.ts:141 | a custom palette of `#` colours, used as a key of `colorPalettes`, finds no palette |
| Patterns.VolumeFactor | lib/patterns.ts:15 | the factor is 1 unless audio-reactive, and at least 1 for a non-negative volume |
| Patterns.ColorOffset | lib/patterns.ts:16 | the offset is 0 unless audio-reactive, and below the palette length for a frequency below 1 |
| Patterns.PaletteIndex | lib/patterns.ts:26 | `(i + colorOffset) % colors.length` is a valid index, and is `i` itself with no offset |
| Patterns.MakeScene | lib/patterns.ts:12-16 | a pattern that is not audio-reactive scales by 1 and shifts colours by 0 |
| Patterns.StarOutline | lib/patterns.ts:162-167 | the star outline has one operation per vertex: a move to vertex 0, then lines |
| Patterns.StarPathShape | lib/patterns.ts:159-168 | a star path is a move, `2 * points - 1` lines to successive vertices, and a close |
| Patterns.ShapeDrawsAt | lib/patterns.ts:19-30 | the k-th operation of a shape loop draws shape k |
| Patterns.FrameStyle | lib/patterns.ts:19-30 | shape k is filled (stroked at width 3 for lines) at the frame's opacity and shadow, in colour `(k + offset) % n` (stars: `k % n`) |
| Patterns.FrameTransforms | lib/patterns.ts:54-67 | triangles and stars are drawn under exactly two transforms pushed on the caller's; the other shapes under the caller's transform |
| Patterns.SilenceIsNeutral | lib/patterns.ts:15-16 | a frame drawn with silent audio is the frame drawn with audio reactivity off |
| Patterns.StarsIgnoreAudio | lib/patterns.ts:135-172 | the star frame is the same whatever the audio data |
| Patterns.DrawCirclePattern | lib/patterns.ts:4-31 | the loop appends exactly the circle frame to the log |
| Patterns.DrawTrianglePattern | lib/patterns.ts:33-69 | the loop appends exactly the triangle frame, and the style and stack are restored |
| Patterns.DrawLinePattern | lib/patterns.ts:71-104 | the loop appends exactly the line frame at line width 3 |
| Patterns.DrawSpiral | lib/patterns.ts:106-133 | the loop appends exactly the spiral frame |
| Patterns.DrawStarPattern | lib/patterns.ts:135-172 | the loop appends exactly the star frame of the five palette colours, and the style and stack are restored |
| Escape.EscapeCount | lib/fractals.ts:28-39 | the count never exceeds a positive budget and is 0 for a budget that is not positive |
| Escape.StepsFirstEscape | lib/fractals.ts:30-39 | no orbit point up to the count has escaped, and below the budget the next one has |
| Escape.EscapeCountIsFirstEscape | lib/fractals.ts:30-39 | the count is the number of steps before the squared modulus of the orbit first exceeds 16; it equals the budget exactly when the orbit never escapes |
| Escape.EscapeTime | lib/fractals.ts:26-39 | the `while` loop computes the escape count |
| Escape.ScaledCount | lib/fractals.ts:41 | `floor((n / iterations) * length)` is `n * length / iterations`: below `length` for an escaping point, equal to it otherwise |
| Escape.ColorIndex | lib/fractals.ts:41-42 | the colour index is valid, and a point that never escapes wraps to colour 0 |
| Escape.Channel | lib/fractals.ts:46-48 | `(rgb >> s) & 255` is a byte |
| Escape.Clamp8 | lib/fractals.ts:46-49 | a store into the clamped pixel buffer keeps the byte nearest the value |
| Escape.Alpha | lib/fractals.ts:49 | the alpha byte is `floor(255 * opacity)` for an opacity in [0, 1], and 255 at full opacity |
| Escape.HexColorValue | lib/fractals.ts:43 | `parseInt` of a `#rrggbb` colour is `rr * 65536 + gg * 256 + bb` |
| Escape.HexColorChannels | lib/fractals.ts:43-48 | the red, green and blue bytes are the colour's three hex pairs |
| Escape.Seeds | lib/fractals.ts:23-27 | the Mandelbrot set starts the orbit at the pixel's own point |
| Escape.PixelIndex | lib/fractals.ts:45 | the byte index `(y * width + x) * 4 + k` decodes back to pixel (x, y) and channel k |
| Escape.IndexPixel | lib/fractals.ts:45 | every byte of the buffer belongs to one pixel and channel |
| Escape.PixelsDisjoint | lib/fractals.ts:45 | different pixels own disjoint four-byte slots |
| Escape.RenderPixel | lib/fractals.ts:41-49 | one pixel writes its four bytes and leaves every other pixel as it was |
| Escape.RenderColumns | lib/fractals.ts:21-51 | the nested loops write every byte of every pixel as the image function gives it |
| Escape.BufferIsImage | lib/fractals.ts:21-51 | a buffer holding every pixel's bytes is the image |
| Escape.RenderEscape | lib/fractals.ts:53 | the frame appends the whole image to the log, once |
| Escape.DrawEscapeFractal | lib/fractals.ts:4-54 | drawing the Mandelbrot or Julia set puts the image of the resolved palette, budget and opacity |
| Escape.ImagePixel | lib/fractals.ts:41-49 | each image byte is its pixel's channel, and a point that never escapes takes colour 0 |
| Escape.HexPixel | lib/fractals.ts:43-49 | a pixel of a `#rrggbb` colour has that colour's three bytes and the opacity's alpha |
| Escape.NamedPalettePixel | lib/fractals.ts:41-43 | with a named palette every pixel colour is a `#rrggbb` colour |
| Escape.Idx | lib/fractals.ts:45 | a pixel's byte index lies inside the buffer |
| Curves.MakePen | lib/fractals.ts:110-113 | the pen carries the parameters' opacity and budget and the resolved colours |
| Curves.Rem | lib/fractals.ts:187 | JavaScript `%` of a non-negative angle lies in [0, m) |
| Curves.DrawTriangleAt | lib/fractals.ts:116-133 | the recursion appends exactly the triangles the Sierpinski specification lists |
| Curves.SierpinskiLevels | lib/fractals.ts:116-133 | every triangle drawn from depth d is drawn at some level from d up to the budget, with that level's alpha and colour |
| Curves.SierpinskiStyle | lib/fractals.ts:119-127 | every triangle is filled with a palette colour at an alpha in (0, opacity] |
| Curves.LevelAlphaRange | lib/fractals.ts:119 | the alpha `opacity * (1 - depth / iterations)` lies in (0, opacity] below the budget |
| Curves.SierpinskiCount | lib/fractals.ts:117-133 | nothing is drawn exactly when the depth reaches the budget or the size is below 2; otherwise at most `(3^(iterations - depth) - 1) / 2` triangles |
| Curves.SierpinskiOneLevel | lib/fractals.ts:117-127 | with a budget of 1 a single triangle is drawn, at full opacity, in the first colour |
| Curves.DrawSierpinskiTriangle | lib/fractals.ts:105-140 | the frame appends exactly the Sierpinski specification from the centre below the middle |
| Curves.Strokes | lib/fractals.ts:155-161 | one stroke per segment, in order |
| Curves.StrokesAppend | lib/fractals.ts:177-180 | stroking two runs of segments one after the other strokes their concatenation |
| Curves.KochLeaves | lib/fractals.ts:153-181 | a Koch curve of depth d has 4^d segments |
| Curves.KochChain | lib/fractals.ts:165-180 | the segments form a connected chain from the first endpoint to the second |
| Curves.KochDrawsAreStrokes | lib/fractals.ts:153-181 | the recursion strokes exactly the curve's segments, in order, at width 2 |
| Curves.KochStrokes | lib/fractals.ts:177-180 | the strokes of a curve are those of its four sub-curves, in order |
| Curves.KochCurve | lib/fractals.ts:153-181 | the recursive method appends exactly the Koch specification |
| Curves.StrokeSegment | lib/fractals.ts:155-161 | the base case strokes one segment in the first colour at full opacity |
| Curves.SidesMeet | lib/fractals.ts:189-192 | the end angle of side i is the start angle of side i + 1 |
| Curves.SnowflakeOutline | lib/fractals.ts:183-195 | the snowflake is one chain of `3 * 4^d` segments through the successive corners |
| Curves.DrawSides | lib/fractals.ts:188-195 | the three sides stroke the snowflake's segments in order |
| Curves.DrawKochSnowflake | lib/fractals.ts:142-196 | the frame strokes the snowflake at depth `min(iterations, 5)` |
| Curves.DragonCurve | lib/fractals.ts:209-237 | the recursion returns the curve's end point and strokes its segments at width 3 |
| Curves.DragonChain | lib/fractals.ts:209-237 | the dragon is a connected chain of 2^d segments from its start to the returned end |
| Curves.DrawDragonCurve | lib/fractals.ts:198-245 | the frame strokes the dragon at depth `min(iterations, 12)` from left of centre |
| Mandala.MakeScene | lib/fractals.ts:252-256 | the mandala is centred on the canvas with maximum radius `0.4 * min(width, height)` |
| Mandala.SpokeColor | lib/fractals.ts:302 | a spoke's colour index is a valid index into the eight colours |
| Mandala.RingColor | lib/fractals.ts:338 | a ring point's colour index is a valid index into the eight colours |
| Mandala.ColorsCycle | lib/fractals.ts:302-338 | successive spokes and successive ring points step through the eight colours, so neighbouring ring points differ |
| Mandala.Reach | lib/fractals.ts:323 | an arm has between 1 and 6 points, and more than 1 only within the budget |
| Mandala.DrawMandalaPoint | lib/fractals.ts:269-314 | the centre point draws three dots, and a deeper point draws one spoke |
| Mandala.ArmShape | lib/fractals.ts:316-328 | each arm is three dots at its wave point, then `Reach - 1` spokes from the centre |
| Mandala.DrawArms | lib/fractals.ts:316-328 | the loops append exactly the eight arms |
| Mandala.RingIsChain | lib/fractals.ts:334-362 | a ring alternates a circle at point i with a segment from point i - 1 to point i |
| Mandala.PrevIsPrevious | lib/fractals.ts:353-356 | the recomputed previous point is ring point i - 1 |
| Mandala.DrawRings | lib/fractals.ts:330-364 | the loops append exactly the four rings |
| Mandala.MandalaCount | lib/fractals.ts:316-364 | a frame has `8 * (2 + Reach) + 220` operations |
| Mandala.MandalaPalette | lib/fractals.ts:258-364 | every operation is painted and shadowed with a mandala colour under the caller's transform |
| Mandala.SpokesFade | lib/fractals.ts:305 | deeper spokes are strictly more transparent, and all are visible |
| Mandala.DrawMandala | lib/fractals.ts:247-367 | the frame appends the arms and the rings, and the shadow blur is reset to 0 |
| Fractals.ParseKindName | lib/fractals.ts:374-392 | `ParseFractal`, the switch of `drawFractal`, maps each fractal's name to that fractal |
| Fractals.UnknownIsMandelbrot | lib/fractals.ts:393-394 | an unknown fractal name draws the Mandelbrot set |
| Fractals.FractalDraws | lib/fractals.ts:369-396 | the escape-time fractals put exactly one image |
| Fractals.DrawFractal | lib/fractals.ts:369-396 | the dispatch appends exactly the chosen fractal's frame |
| Page.AllBackgrounds | app/page.tsx:65-68 | the custom background replaces the table's `custom` entry and adds no key |
| Page.BackgroundLookup | app/page.tsx:154 | `BackgroundFor`, the lookup with its `dark` fallback: `custom` gives the user's colours, a table key its entry, and anything else `dark` |
| Page.BackgroundIsHex | app/page.tsx:154 | with `#rrggbb` custom colours the chosen background is made of `#rrggbb` colours |
| Page.GradientRadius | app/page.tsx:151-161 | the gradient's radius is not negative |
| Page.Gradient | app/page.tsx:155-164 | a radial gradient centred on the canvas runs from radius 0 in the primary colour to the secondary |
| Page.GradientCovers | app/page.tsx:151-161 | twice the radius, times the zoom, is the larger canvas side |
| Page.BackgroundDraws | app/page.tsx:148-166 | the background clears the canvas, then fills it with the gradient at the current alpha |
| Page.ParsePattern | app/page.tsx:172-191 | a parsed pattern has exactly the given name, and only the six names parse |
| Page.ParsePatternName | app/page.tsx:172-191 | each pattern's name selects that pattern |
| Page.UnknownPatternDrawsNothing | app/page.tsx:172-191 | an unknown pattern name draws nothing |
| Page.DrawFrame | app/page.tsx:147-191 | a frame is the background followed by the pattern's operations, and the transform and stack are kept |
| Page.DrawArt | app/page.tsx:137-194 | with a canvas the frame is drawn at `time ?? 0`; without one nothing changes |
| Page.SaveKeepsOthers | app/page.tsx:108-112 | `SaveCustomPalette` adds or replaces only the saved name |
| Page.SelectCustom | app/page.tsx:115-116 | in `SelectedPalette`, the palette chosen for a selection, `custom:n` selects the stored colours of `n`, or `undefined` when none are stored |
| Page.SelectNamed | app/page.tsx:117-118 | any other value is used as a palette key |
| Page.SelectPaletteKey | app/page.tsx:113-120 | each of the six keys selects a palette that resolves |
| Page.SaveThenSelect | app/page.tsx:108-120 | selecting a custom palette just saved gives its colours |
| Page.HandlePaletteChange | app/page.tsx:113-120 | the selection is recorded, the palette is set from it, and no other parameter changes |
| Page.Pick | app/page.tsx:250 | `floor(random * n)` is a valid index |
| Page.PaletteKeys | app/page.tsx:243-246 | the candidates are the six keys followed by one per custom palette |
| Page.Randomize | app/page.tsx:241-274 | every random value lies in its range, the pattern, fractal and background are valid names, and the palette follows the selection |
| Page.RandomPaletteUsable | app/page.tsx:250-259 | a randomized palette always resolves to colours |
| Page.RandomFrameRenderable | app/page.tsx:241-274 | randomized parameters can be drawn, except stars with a custom palette |
| Page.RandomStarsRejectCustom | app/page.tsx:250-258 | stars with a randomly chosen custom palette cannot be drawn |
| Video.ProgressMonotone | app/page.tsx:435 | progress never decreases as frames are captured |
| Video.ProgressEnds | app/page.tsx:435-436 | `Progress`, the rounded percentage, starts at 0 and reaches 100 exactly at the 150th frame |
| Video.ProgressBounds | app/page.tsx:435 | progress stays in [0, 100] |
| Video.Recorder.SaveVideo | app/page.tsx:398-431 | nothing happens while recording, when still or without a canvas; otherwise a capture starts from 0 |
| Video.Recorder.Tick | app/page.tsx:432-440 | a tick draws at `now + captured * 33`, counts the frame, updates progress and stops after 150 |
| Video.Recorder.Stopped | app/page.tsx:414-423 | stopping ends the recording |
| Video.Recorder.Capture | app/page.tsx:425-440 | a capture draws exactly 150 frames, 33 ms apart in animation time, and ends at progress 100 |
| Audio.Sum | hooks/use-audio-input.ts:38 | the sum of n bytes lies in [0, 255n] |
| Audio.VolumeBounds | hooks/use-audio-input.ts:38-39 | `Volume`, the mean byte divided by 255, lies in [0, 1] |
| Audio.MaxIndex | hooks/use-audio-input.ts:40-43 | the loop finds the first index of the largest byte |
| Audio.FirstMaxUnique | hooks/use-audio-input.ts:40-43 | that index is unique |
| Audio.FrequencyBelowOne | hooks/use-audio-input.ts:44 | `Frequency`, the first peak's index over the bucket count, of a 256-bucket spectrum is at most 255/256 |
| Audio.FlatSpectrum | hooks/use-audio-input.ts:40-44 | a flat spectrum has frequency 0 |
| Audio.Tick | hooks/use-audio-input.ts:36-45 | a tick's volume is the mean byte / 255 and its frequency the first peak / 256; the volume lies in [0, 1] and the frequency in [0, 1) |
| Audio.HookData | hooks/use-audio-input.ts:11-17 | while disabled the hook reports silence, otherwise the last tick |
| Gallery.Load | lib/gallery.ts:13-21 | on the server, with nothing stored or on a parse failure the list is empty, otherwise it is what was parsed |
| Gallery.Without | lib/gallery.ts:39 | removing never lengthens the list |
| Gallery.WithoutAppend | lib/gallery.ts:39 | removal distributes over concatenation, so the survivors keep their order |
| Gallery.WithoutExactly | lib/gallery.ts:39 | an item survives exactly when it was there and has another id |
| Gallery.WithoutAbsent | lib/gallery.ts:39 | removing an id no item has changes nothing |
| Gallery.AddThenRemove | lib/gallery.ts:28-41 | adding an item with a fresh id and removing that id restores the list |
| Gallery.Store.AddItem | lib/gallery.ts:28-32 | the item is put in front of the stored list |
| Gallery.Store.GetItems | lib/gallery.ts:34-36 | the stored list is returned |
| Gallery.Store.RemoveItem | lib/gallery.ts:38-41 | the stored list loses the items with the id |
| PaletteEditor.Editor.constructor | components/color-palette-editor.tsx:13-20 | the editor starts with an empty name and the five initial colours |
| PaletteEditor.Editor.SetName | components/color-palette-editor.tsx:39 | typing sets the name |
| PaletteEditor.Editor.HandleColorChange | components/color-palette-editor.tsx:22-28 | entry `index` takes the new value; every other entry and the length stay |
| PaletteEditor.Editor.HandleSave | components/color-palette-editor.tsx:30-34 | a blank name saves nothing; otherwise the trimmed name and colours are passed on once and the name is cleared |
| PaletteEditor.Editor.SaveTwice | components/color-palette-editor.tsx:30-34 | saving twice in a row passes the palette on once |

## Left out

- Floating point: all arithmetic is on exact reals and unbounded integers.
  - Rounding, NaN and infinity are not modelled. The one exception: a NaN
    that `parseInt` returns is read as 0 by `>>`, and that is modelled.
  - `Video.Progress` rounds exactly. `2 * captured / 3` is never halfway
    between two integers, so the exact rounding agrees with the
    floating-point one.
- `Math.sin`, `Math.cos`, `Math.atan2`, `Math.sqrt` and `Math.PI` are
  uninterpreted. Geometric facts that depend on their values are not stated.
  For example, the snowflake's last corner is not proved to be its first.
- Page.Randomize: the values produced through `toFixed` keep their exact
  ranges. Decimal rounding can lift a speed to 3.5, an opacity to 0.8 and a
  scale to 1.0, and the model does not include those end points.
- `isAnimated` and `fractalAngle` are random but unconstrained in the
  randomized record: no renderer in the model reads them.
- Preconditions the code relies on without checking, where it throws or
  never ends otherwise. These failing cases are excluded rather than
  modelled as errors:
  - a palette that resolves to a list: `colors.length` of `undefined` throws;
  - for Mandelbrot and Julia, a non-empty palette, a non-zero budget and a
    canvas that is not empty (`undefined.slice`, `createImageData`);
  - for Koch and Dragon, a budget that is not negative (the recursion never
    reaches depth 0);
  - for the background gradient, `zoom > 0` (the zoom slider runs from 0.5
    to 2).
- Inputs that no caller produces, which are excluded rather than modelled:
  - An empty palette, for the shape patterns, Sierpinski, Koch and Dragon.
    Named palettes and saved custom palettes always have five colours. With
    no colours, `colors[k % 0]` is `undefined`. Assigning it to `fillStyle`
    or `strokeStyle` is silently ignored, so the shape is drawn in the
    colour left over from before. The model does not capture that ignored
    assignment.
  - A negative `time` for the mandala. Frame times come from
    `requestAnimationFrame`, `performance.now()` or 0, and are never
    negative. A negative time makes the colour index negative, and the
    ignored assignment is not modelled here either.
- The style attributes and path that the shape loops leave on the context
  are not stated. Only the drawn operations, `globalAlpha` and, for
  triangles and stars, the restored state are stated.
- Object lookups ignore prototype keys such as `toString`.
  - The order of `Object.keys(customPalettes)` is the randomizer's
    `customKeys` parameter.
  - `Page.CustomKeysOf` is assumed by the palette lemmas. It asks only that
    every listed name be saved with a non-empty palette.
  - It is not stated that the list holds every saved name, nor that each
    name appears once.
  - `Math.random()` values are a parameter, a sequence of draws in [0, 1).
- PaletteEditor.Editor.HandleColorChange: it requires the index to be in
  range, because the colour inputs pass only existing indices. JavaScript
  would extend the array for a larger index.
- Persistence to `localStorage` and JSON are left out.
  - The gallery store keeps its list in a field.
  - `JSON.parse` is a parameter of `Gallery.Load`.
  - Saving custom palettes and the custom background to `localStorage` is
    not modelled.
- The following I/O is not modelled: `requestAnimationFrame`, `setInterval`,
  `MediaRecorder`, `captureStream`, microphone access (`getUserMedia`, the
  analyser node) and the `performance.now()` clock. The clock readings and
  the analyser's spectrum are parameters.
- The React rendering and the other page actions (PNG and GIF export,
  fullscreen, the custom-background editor) are not part of this model.
