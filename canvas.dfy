/**
 * The slice of the 2-D drawing context the renderers use. The context keeps
 * the style attributes a renderer assigns, the current path, the transform
 * and the save/restore stack, and records every drawing operation, with the
 * attributes that operation reads, in `drawn`.
 */
module Canvas {

  datatype Point = Point(x: real, y: real)

  /**
   * `Math.sin`, `Math.cos`, `Math.atan2`, `Math.sqrt` and `Math.PI`, left
   * uninterpreted: the model never evaluates them.
   */
  datatype Trig = Trig(
    sin: real -> real,
    cos: real -> real,
    atan2: (real, real) -> real,
    sqrt: real -> real,
    pi: real)
  {
    /** The two facts about these the renderers divide by. */
    predicate Valid() {
      pi > 0.0 && sqrt(2.0) > 0.0
    }

    /** The point at `angle` and distance `r` from `center`. */
    function Polar(center: Point, angle: real, r: real): Point {
      Point(center.x + cos(angle) * r, center.y + sin(angle) * r)
    }
  }

  /** A fill or stroke style: a colour string, or a radial gradient with two stops. */
  datatype Paint =
    | Solid(color: string)
    | Radial(center: Point, innerRadius: real, outerRadius: real, inner: string, outer: string)

  datatype Shadow = Shadow(color: string, blur: real)

  datatype PathOp = Move(to: Point) | Line(to: Point) | Circle(center: Point, radius: real) | Close

  datatype Transform = Shift(dx: real, dy: real) | Turn(angle: real)

  /** One drawing operation, with the state it reads. */
  datatype Draw =
    | Cleared(x: real, y: real, w: real, h: real, transform: seq<Transform>)
    | RectFilled(x: real, y: real, w: real, h: real, alpha: real, paint: Paint, shadow: Shadow, transform: seq<Transform>)
    | Filled(path: seq<PathOp>, alpha: real, paint: Paint, shadow: Shadow, transform: seq<Transform>)
    | Stroked(path: seq<PathOp>, alpha: real, paint: Paint, lineWidth: real, shadow: Shadow, transform: seq<Transform>)
    | ImagePut(pixels: seq<int>, width: nat, height: nat)

  /** What `save` pushes: the style attributes and the transform (not the path). */
  datatype Saved = Saved(
    alpha: real, fill: Paint, stroke: Paint, lineWidth: real, shadow: Shadow, transform: seq<Transform>)

  class Context {
    const width: nat
    const height: nat
    var globalAlpha: real
    var fillStyle: Paint
    var strokeStyle: Paint
    var lineWidth: real
    var shadowColor: string
    var shadowBlur: real
    var transform: seq<Transform>
    var stack: seq<Saved>
    var path: seq<PathOp>
    var drawn: seq<Draw>

    /** A fresh context in the canvas's initial state. */
    constructor (w: nat, h: nat)
      ensures width == w && height == h
      ensures globalAlpha == 1.0 && fillStyle == Solid("#000000") && strokeStyle == Solid("#000000")
      ensures lineWidth == 1.0 && shadowColor == "rgba(0, 0, 0, 0)" && shadowBlur == 0.0
      ensures transform == [] && stack == [] && path == [] && drawn == []
    {
      width, height := w, h;
      globalAlpha, fillStyle, strokeStyle, lineWidth := 1.0, Solid("#000000"), Solid("#000000"), 1.0;
      shadowColor, shadowBlur := "rgba(0, 0, 0, 0)", 0.0;
      transform, stack, path, drawn := [], [], [], [];
    }

    function CurrentShadow(): Shadow
      reads this
    {
      Shadow(shadowColor, shadowBlur)
    }

    function Snapshot(): Saved
      reads this
    {
      Saved(globalAlpha, fillStyle, strokeStyle, lineWidth, CurrentShadow(), transform)
    }

    method ClearRect(x: real, y: real, w: real, h: real)
      modifies this`drawn
      ensures drawn == old(drawn) + [Cleared(x, y, w, h, transform)]
    {
      drawn := drawn + [Cleared(x, y, w, h, transform)];
    }

    method FillRect(x: real, y: real, w: real, h: real)
      modifies this`drawn
      ensures drawn == old(drawn) + [RectFilled(x, y, w, h, globalAlpha, fillStyle, CurrentShadow(), transform)]
    {
      drawn := drawn + [RectFilled(x, y, w, h, globalAlpha, fillStyle, CurrentShadow(), transform)];
    }

    method BeginPath()
      modifies this`path
      ensures path == []
    {
      path := [];
    }

    method MoveTo(x: real, y: real)
      modifies this`path
      ensures path == old(path) + [Move(Point(x, y))]
    {
      path := path + [Move(Point(x, y))];
    }

    method LineTo(x: real, y: real)
      modifies this`path
      ensures path == old(path) + [Line(Point(x, y))]
    {
      path := path + [Line(Point(x, y))];
    }

    /** `arc(x, y, r, 0, 2π)`: a full circle. */
    method Arc(x: real, y: real, r: real)
      modifies this`path
      ensures path == old(path) + [Circle(Point(x, y), r)]
    {
      path := path + [Circle(Point(x, y), r)];
    }

    method ClosePath()
      modifies this`path
      ensures path == old(path) + [Close]
    {
      path := path + [Close];
    }

    method Fill()
      modifies this`drawn
      ensures drawn == old(drawn) + [Filled(path, globalAlpha, fillStyle, CurrentShadow(), transform)]
    {
      drawn := drawn + [Filled(path, globalAlpha, fillStyle, CurrentShadow(), transform)];
    }

    method Stroke()
      modifies this`drawn
      ensures drawn == old(drawn) + [Stroked(path, globalAlpha, strokeStyle, lineWidth, CurrentShadow(), transform)]
    {
      drawn := drawn + [Stroked(path, globalAlpha, strokeStyle, lineWidth, CurrentShadow(), transform)];
    }

    method Save()
      modifies this`stack
      ensures stack == old(stack) + [Snapshot()]
    {
      stack := stack + [Snapshot()];
    }

    /** Pops the last saved state back into the context; does nothing on an empty stack. */
    method Restore()
      modifies this`stack, this`globalAlpha, this`fillStyle, this`strokeStyle, this`lineWidth
      modifies this`shadowColor, this`shadowBlur, this`transform
      ensures old(stack) == [] ==> stack == [] && Snapshot() == old(Snapshot())
      ensures old(stack) != [] ==>
        stack == old(stack)[..|old(stack)| - 1] && Snapshot() == old(stack)[|old(stack)| - 1]
    {
      if stack != [] {
        var s := stack[|stack| - 1];
        stack := stack[..|stack| - 1];
        globalAlpha, fillStyle, strokeStyle, lineWidth := s.alpha, s.fill, s.stroke, s.lineWidth;
        shadowColor, shadowBlur, transform := s.shadow.color, s.shadow.blur, s.transform;
      }
    }

    method Translate(dx: real, dy: real)
      modifies this`transform
      ensures transform == old(transform) + [Shift(dx, dy)]
    {
      transform := transform + [Shift(dx, dy)];
    }

    method Rotate(angle: real)
      modifies this`transform
      ensures transform == old(transform) + [Turn(angle)]
    {
      transform := transform + [Turn(angle)];
    }

    /** `putImageData(image, 0, 0)`. */
    method PutImageData(pixels: seq<int>)
      modifies this`drawn
      ensures drawn == old(drawn) + [ImagePut(pixels, width, height)]
    {
      drawn := drawn + [ImagePut(pixels, width, height)];
    }
  }
}
