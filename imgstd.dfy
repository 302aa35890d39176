/** The scene built-ins scripts call (src/imgstd/mod.rs): a canvas that
    collects shapes with their strokes, and plain constructors. */
module ImgStd {
  import opened Numbers
  import G = ImgGeometry
  import S = ImgStyle
  import opened ImgTransform
  import opened ImgShape
  import opened ImgInput

  /** One drawn entry: a shape and the stroke to draw it with. */
  type Entry = (Shape, S.Stroke)

  /** The canvas a script builds. `draw` appends to it in place. */
  class Context {
    var canvasWidth: i64
    var canvasHeight: i64
    var shapes: seq<Entry>

    /** `canvas_width_height`: a canvas of the given size with nothing drawn. */
    constructor CanvasWidthHeight(width: i64, height: i64)
      ensures canvasWidth == width && canvasHeight == height
      ensures shapes == []
    {
      canvasWidth := width;
      canvasHeight := height;
      shapes := [];
    }

    /** Append `(shape, stroke)` after everything drawn so far. */
    method Draw(shape: Shape, stroke: S.Stroke)
      modifies this
      ensures shapes == old(shapes) + [(shape, stroke)]
      ensures canvasWidth == old(canvasWidth) && canvasHeight == old(canvasHeight)
    {
      shapes := shapes + [(shape, stroke)];
    }

    /** The drawn entries, in the order they were drawn. */
    method Out() returns (entries: seq<Entry>)
      ensures entries == shapes
    {
      entries := shapes;
    }
  }

  /** `stroke(width, color)`. */
  function Stroke(width: real, color: S.Color): (s: S.Stroke)
    ensures s.width == width && s.color == color
  {
    S.Stroke(width, color)
  }

  /** `circle(radius)`: a circle at the origin. */
  function Circle(radius: real): (s: Shape)
    ensures s.geometry == G.CircleGeometry(G.Circle(radius))
    ensures forall p :: Maps(s.transform, p) == p
  {
    WithGeometry(G.CircleGeometry(G.Circle(radius)))
  }

  /** `circle_at(radius, x, y)`: a circle moved to (x, y). */
  function CircleAt(radius: real, x: real, y: real): Shape {
    New(G.CircleGeometry(G.Circle(radius)), Transform(AffineTranslate(x, y)))
  }

  function Translation(x: real, y: real): Transform {
    ImgTransform.Translate(x, y)
  }

  /** `transform(shape, t)`: the same geometry under `t` alone. */
  function TransformShape(shape: Shape, transform: Transform): Shape {
    New(shape.geometry, transform)
  }

  /** `extern(min, max)` on integers: no check that `min <= max`. */
  function ExternInt(min: i64, max: i64): (input: ExternalInput)
    ensures input.IntInput? && input.intMin == min && input.intMax == max
  {
    IntInput(min, max)
  }

  /** `extern(min, max)` on floats: no check that `min <= max`. */
  function ExternFloat(min: real, max: real): (input: ExternalInput)
    ensures input.FloatInput? && input.floatMin == min && input.floatMax == max
  {
    FloatInput(min, max)
  }

  /** `circle_at` places the circle's centre at (x, y). */
  lemma CircleAtMaps(radius: real, x: real, y: real, p: Point)
    ensures CircleAt(radius, x, y).geometry == G.CircleGeometry(G.Circle(radius))
    ensures Maps(CircleAt(radius, x, y).transform, p) == Point(p.x + x, p.y + y)
  {
  }

  /** `circle_at(r, x, y)` is `transform(circle(r), translation(x, y))`. */
  lemma CircleAtIsTranslatedCircle(radius: real, x: real, y: real)
    ensures CircleAt(radius, x, y) == TransformShape(Circle(radius), Translation(x, y))
  {
  }

  /** `transform` replaces the shape's transform; it does not compose with it. */
  lemma TransformReplaces(shape: Shape, t: Transform, p: Point)
    ensures TransformShape(shape, t).geometry == shape.geometry
    ensures Maps(TransformShape(shape, t).transform, p) == Maps(t, p)
    ensures TransformShape(TransformShape(shape, t), t) == TransformShape(shape, t)
  {
  }

  /** `translation(x, y)` moves every point by (x, y). */
  lemma TranslationMaps(x: real, y: real, p: Point)
    ensures Maps(Translation(x, y), p) == Point(p.x + x, p.y + y)
  {
  }

  /** A script's canvas, drawn on twice, gives back both entries in draw
      order from `out`. */
  method DrawTwiceThenOut(width: i64, height: i64, first: Entry, second: Entry) returns (entries: seq<Entry>)
    ensures entries == [first, second]
  {
    var canvas := new Context.CanvasWidthHeight(width, height);
    canvas.Draw(first.0, first.1);
    canvas.Draw(second.0, second.1);
    entries := canvas.Out();
  }
}
