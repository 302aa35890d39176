/** Turning a finished canvas into drawing commands and an SVG document
    (src/context_artist.rs). The renderer is modelled as the list of commands
    it receives, and the output stream as a sink of characters. */
module ContextArtist {
  import opened Numbers
  import opened ImgTransform
  import opened ImgShape
  import G = ImgGeometry
  import S = ImgStyle
  import opened ImgStd

  /** An RGBA colour as the renderer stores it, one byte per channel. */
  datatype PietColor = Rgba8(red: nat, green: nat, blue: nat, alpha: nat)

  const PIET_BLACK: PietColor := Rgba8(0, 0, 0, 255)
  const PIET_WHITE: PietColor := Rgba8(255, 255, 255, 255)
  const PIET_RED: PietColor := Rgba8(255, 0, 0, 255)

  /** `From<Color> for piet::Color`: each colour to the renderer's colour of the same name. */
  function IntoPietColor(color: S.Color): PietColor {
    match color
    case Black => PIET_BLACK
    case White => PIET_WHITE
    case Red => PIET_RED
  }

  lemma IntoPietColorNames(color: S.Color)
    ensures color == S.Black <==> IntoPietColor(color) == PIET_BLACK
    ensures color == S.White <==> IntoPietColor(color) == PIET_WHITE
    ensures color == S.Red <==> IntoPietColor(color) == PIET_RED
  {
  }

  /** Different colours never become the same renderer colour. */
  lemma IntoPietColorInjective(c1: S.Color, c2: S.Color)
    ensures IntoPietColor(c1) == IntoPietColor(c2) ==> c1 == c2
  {
  }

  /** A kurbo circle. */
  datatype KurboCircle = KurboCircle(center: Point, radius: real)

  /** The shape handed to the renderer: a circle seen through an affine map. */
  datatype PietShape = TransformedCircle(affine: Affine, circle: KurboCircle)

  /** `into_piet`: a radius-`r` circle at the origin under the shape's transform. */
  function IntoPiet(shape: Shape): PietShape {
    match shape.geometry
    case CircleGeometry(circle) =>
      TransformedCircle(shape.transform.inner, KurboCircle(Point(0.0, 0.0), circle.radius))
  }

  lemma IntoPietPlaces(shape: Shape, p: Point)
    ensures IntoPiet(shape).circle == KurboCircle(Point(0.0, 0.0), shape.geometry.circle.radius)
    ensures Apply(IntoPiet(shape).affine, p) == Maps(shape.transform, p)
  {
  }

  datatype Rect = Rect(x0: real, y0: real, x1: real, y1: real)

  datatype Brush = ColorBrush(color: PietColor)

  /** The drawing operations the scene renderer issues. */
  datatype Command =
    | Fill(rect: Rect, fillColor: PietColor)
    | Stroke(shape: PietShape, brush: Brush, width: real)

  /** The renderer's context: its size and the commands issued to it so far. */
  class RenderContext {
    const width: real
    const height: real
    var commands: seq<Command>

    constructor (width: real, height: real)
      ensures this.width == width && this.height == height && commands == []
    {
      this.width := width;
      this.height := height;
      commands := [];
    }

    method Fill(rect: Rect, color: PietColor)
      modifies this
      ensures commands == old(commands) + [Command.Fill(rect, color)]
    {
      commands := commands + [Command.Fill(rect, color)];
    }

    method Stroke(shape: PietShape, brush: Brush, width: real)
      modifies this
      ensures commands == old(commands) + [Command.Stroke(shape, brush, width)]
    {
      commands := commands + [Command.Stroke(shape, brush, width)];
    }
  }

  /** The stroke an entry becomes: its shape moved by `pre`, in its own colour and width. */
  function StrokeFor(entry: Entry, pre: Transform): Command {
    var shape := PreTransform(entry.0, pre);
    Command.Stroke(IntoPiet(shape), ColorBrush(IntoPietColor(entry.1.color)), entry.1.width)
  }

  /** The commands `draw_context_to_svg` issues for a canvas of the given size
      holding `entries`. */
  function Rendering(width: real, height: real, entries: seq<Entry>): seq<Command> {
    var pre := GetPreTransform(width, height);
    [Command.Fill(Rect(0.0, 0.0, width, height), PIET_WHITE)]
      + seq(|entries|, k requires 0 <= k < |entries| => StrokeFor(entries[k], pre))
  }

  /** The background comes first and is the only fill; after it there is
      exactly one stroke per entry, in entry order, each in that entry's own
      colour and width. */
  lemma RenderingOrder(width: real, height: real, entries: seq<Entry>)
    ensures |Rendering(width, height, entries)| == |entries| + 1
    ensures Rendering(width, height, entries)[0] == Command.Fill(Rect(0.0, 0.0, width, height), PIET_WHITE)
    ensures forall k :: 0 <= k < |entries| ==>
      var c := Rendering(width, height, entries)[k + 1];
      c.Stroke? && c.brush == ColorBrush(IntoPietColor(entries[k].1.color)) && c.width == entries[k].1.width
  {
  }

  /** Every stroke's shape is its entry's shape moved first by the entry's own
      transform, then by the canvas pre-transform. */
  lemma RenderingPlaces(width: real, height: real, entries: seq<Entry>, k: nat, p: Point)
    requires k < |entries|
    ensures Rendering(width, height, entries)[k + 1].Stroke?
    ensures Apply(Rendering(width, height, entries)[k + 1].shape.affine, p)
         == Maps(GetPreTransform(width, height), Maps(entries[k].0.transform, p))
  {
    var pre := GetPreTransform(width, height);
    PreTransformMaps(entries[k].0, pre, p);
  }

  /** Drawing one more entry adds exactly its stroke at the end of the rendering. */
  lemma RenderingOfDraw(width: real, height: real, entries: seq<Entry>, entry: Entry)
    ensures Rendering(width, height, entries + [entry])
         == Rendering(width, height, entries) + [StrokeFor(entry, GetPreTransform(width, height))]
  {
    var pre := GetPreTransform(width, height);
    var longer := entries + [entry];
    assert seq(|longer|, k requires 0 <= k < |longer| => StrokeFor(longer[k], pre))
        == seq(|entries|, k requires 0 <= k < |entries| => StrokeFor(entries[k], pre)) + [StrokeFor(entry, pre)];
  }

  /** A circle drawn with `circle_at(r, x, y)` is centred at (x + w/2, h/2 - y) on the canvas. */
  lemma CircleAtCentre(width: real, height: real, entries: seq<Entry>, k: nat, radius: real, x: real, y: real)
    requires k < |entries| && entries[k].0 == CircleAt(radius, x, y)
    ensures Rendering(width, height, entries)[k + 1].Stroke?
    ensures Apply(Rendering(width, height, entries)[k + 1].shape.affine, Point(0.0, 0.0))
         == Point(x + width / 2.0, height / 2.0 - y)
  {
    RenderingPlaces(width, height, entries, k, Point(0.0, 0.0));
    CircleAtMaps(radius, x, y, Point(0.0, 0.0));
    GetPreTransformMaps(width, height, Point(x, y));
  }

  /** A stream the SVG document is written to: it accepts up to `capacity`
      characters, and a write that does not fit writes what fits and fails. */
  class Sink {
    const capacity: nat
    var written: string

    predicate Valid()
      reads this
    {
      |written| <= capacity
    }

    constructor (capacity: nat)
      ensures this.capacity == capacity && written == [] && Valid()
    {
      this.capacity := capacity;
      written := [];
    }

    /** `write_all`. */
    method WriteAll(data: string) returns (ok: bool)
      requires Valid()
      modifies this
      ensures Valid()
      ensures ok <==> |old(written)| + |data| <= capacity
      ensures written == old(written) + (if ok then data else data[..capacity - |old(written)|])
    {
      if |written| + |data| <= capacity {
        written := written + data;
        ok := true;
      } else {
        written := written + data[..capacity - |written|];
        ok := false;
      }
    }
  }

  const U64_MODULUS: int := 0x1_0000_0000_0000_0000

  /** Rust's `as u64` on a float: truncation toward zero, saturating at both ends. */
  function AsU64(x: real): (n: nat)
    ensures n < U64_MODULUS
    ensures 0.0 <= x < U64_MODULUS as real ==> n as real <= x < n as real + 1.0
    ensures x < 0.0 ==> n == 0
    ensures x >= U64_MODULUS as real ==> n == U64_MODULUS - 1
  {
    if x < 0.0 then 0 else if x >= U64_MODULUS as real then U64_MODULUS - 1 else x.Floor
  }

  const HEADER_START: string := "\n<svg xmlns=\"http://www.w3.org/2000/svg\" clip-path=\"url(#cut-off-bottom)\">\n  <defs>\n    <clipPath id=\"cut-off-bottom\">\n      <rect x=\"0\" y=\"0\" width=\""
  const HEADER_MIDDLE: string := "\" height=\""
  const HEADER_END: string := "\" />\n    </clipPath>\n  </defs>\n        "
  const CLIPPING_FOOTER: string := "</svg>"

  /** The clipping header with the width and height filled in, in decimal. */
  function ClippingHeader(width: nat, height: nat): string {
    HEADER_START + (Show(width) + (HEADER_MIDDLE + (Show(height) + HEADER_END)))
  }

  lemma CancelPrefix(a: string, x: string, y: string)
    requires a + x == a + y
    ensures x == y
  {
    assert x == (a + x)[|a|..];
    assert y == (a + y)[|a|..];
  }

  /** In a decimal number followed by a non-digit, the digits end exactly where the number does. */
  lemma DigitRun(m: nat, x: string)
    requires x != [] && !IsDigit(x[0])
    ensures forall k :: 0 <= k < |Show(m)| ==> IsDigit((Show(m) + x)[k])
    ensures !IsDigit((Show(m) + x)[|Show(m)|])
  {
  }

  /** A decimal number followed by a non-digit can be read back. */
  lemma ShowThenNonDigit(m: nat, n: nat, x: string, y: string)
    requires Show(m) + x == Show(n) + y
    requires x != [] && !IsDigit(x[0]) && y != [] && !IsDigit(y[0])
    ensures m == n && x == y
  {
    DigitRun(m, x);
    DigitRun(n, y);
    var i, j := |Show(m)|, |Show(n)|;
    assert i == j;
    assert Show(m) == (Show(m) + x)[..i] == Show(n);
    CancelPrefix(Show(m), x, y);
  }

  /** The header states the size it was made for: different sizes give different headers. */
  lemma ClippingHeaderDeterminesSize(w1: nat, h1: nat, w2: nat, h2: nat)
    requires ClippingHeader(w1, h1) == ClippingHeader(w2, h2)
    ensures w1 == w2 && h1 == h2
  {
    CancelPrefix(HEADER_START, Show(w1) + (HEADER_MIDDLE + (Show(h1) + HEADER_END)), Show(w2) + (HEADER_MIDDLE + (Show(h2) + HEADER_END)));
    assert HEADER_MIDDLE[0] == '"';
    ShowThenNonDigit(w1, w2, HEADER_MIDDLE + (Show(h1) + HEADER_END), HEADER_MIDDLE + (Show(h2) + HEADER_END));
    CancelPrefix(HEADER_MIDDLE, Show(h1) + HEADER_END, Show(h2) + HEADER_END);
    assert HEADER_END[0] == '"';
    ShowThenNonDigit(h1, h2, HEADER_END, HEADER_END);
  }

  /** What fits of three pieces written one after another. */
  lemma PrefixOfThree(a: string, b: string, c: string, n: nat)
    requires n <= |a| + |b| + |c|
    ensures n <= |a| ==> (a + b + c)[..n] == a[..n]
    ensures |a| < n <= |a| + |b| ==> (a + b + c)[..n] == a + b[..n - |a|]
    ensures |a| + |b| < n ==> (a + b + c)[..n] == a + b + c[..n - |a| - |b|]
  {
    if n <= |a| {
      assert (a + b + c)[..n] == a[..n];
    } else if n <= |a| + |b| {
      assert (a + b + c)[..n] == a + b[..n - |a|];
    } else {
      assert (a + b + c)[..n] == a + b + c[..n - |a| - |b|];
    }
  }

  /** The finished rendering, ready to be written as SVG. */
  class SvgImageWriter {
    const rc: RenderContext

    constructor (rc: RenderContext)
      ensures this.rc == rc
    {
      this.rc := rc;
    }

    function Width(): nat
      reads this
    {
      AsU64(rc.width)
    }

    function Height(): nat
      reads this
    {
      AsU64(rc.height)
    }

    function GetClippingHeader(): string
      reads this
    {
      ClippingHeader(Width(), Height())
    }

    /** `write`: the header with `write_all`, then the renderer's own `write`
        of its SVG body, then the footer with `write_all`, returning at the
        first failure. `body` is the text the renderer serialises its commands
        to; its write is modelled as one all-or-prefix write of `body`, which
        on a bounded sink is what any sequence of writes of its pieces leaves. */
    method Write(sink: Sink, body: string) returns (ok: bool)
      requires sink.Valid()
      modifies sink
      ensures sink.Valid()
      ensures var document := GetClippingHeader() + body + CLIPPING_FOOTER;
        && (ok <==> |old(sink.written)| + |document| <= sink.capacity)
        && (ok ==> sink.written == old(sink.written) + document)
        && (!ok ==> sink.written == old(sink.written) + document[..sink.capacity - |old(sink.written)|])
    {
      ok := WriteDocument(sink, GetClippingHeader(), body);
    }
  }

  /** The three writes of `write`, returning at the first failure: `write_all`
      of the header, the renderer's write of `body` (as one all-or-prefix
      write) and `write_all` of the footer. */
  method WriteDocument(sink: Sink, header: string, body: string) returns (ok: bool)
    requires sink.Valid()
    modifies sink
    ensures sink.Valid()
    ensures var document := header + body + CLIPPING_FOOTER;
      && (ok <==> |old(sink.written)| + |document| <= sink.capacity)
      && (ok ==> sink.written == old(sink.written) + document)
      && (!ok ==> sink.written == old(sink.written) + document[..sink.capacity - |old(sink.written)|])
  {
    ghost var before := sink.written;
    ok := sink.WriteAll(header);
    if !ok {
      PrefixOfThree(header, body, CLIPPING_FOOTER, sink.capacity - |before|);
      return;
    }
    ok := sink.WriteAll(body);
    if !ok {
      PrefixOfThree(header, body, CLIPPING_FOOTER, sink.capacity - |before|);
      return;
    }
    ok := sink.WriteAll(CLIPPING_FOOTER);
    if !ok {
      PrefixOfThree(header, body, CLIPPING_FOOTER, sink.capacity - |before|);
    }
  }

  /** `draw_context_to_svg`: a white background over the whole canvas, then
      every entry in order, moved by the canvas pre-transform and stroked in
      its own colour and width. */
  method DrawContextToSvg(context: Context) returns (writer: SvgImageWriter)
    ensures fresh(writer) && fresh(writer.rc)
    ensures writer.rc.width == context.canvasWidth as real && writer.rc.height == context.canvasHeight as real
    ensures writer.rc.commands == Rendering(context.canvasWidth as real, context.canvasHeight as real, context.shapes)
  {
    var width := context.canvasWidth as real;
    var height := context.canvasHeight as real;
    var canvas := new RenderContext(width, height);
    var pre := GetPreTransform(width, height);
    canvas.Fill(Rect(0.0, 0.0, width, height), PIET_WHITE);
    var entries := context.shapes;
    var i := 0;
    while i < |entries|
      invariant 0 <= i <= |entries|
      invariant canvas.commands == Rendering(width, height, entries[..i])
    {
      var (shape, stroke) := entries[i];
      shape := PreTransform(shape, pre);
      var pietShape := IntoPiet(shape);
      canvas.Stroke(pietShape, ColorBrush(IntoPietColor(stroke.color)), stroke.width);
      RenderingOfDraw(width, height, entries[..i], entries[i]);
      assert entries[..i + 1] == entries[..i] + [entries[i]];
      i := i + 1;
    }
    assert entries[..i] == entries;
    writer := new SvgImageWriter(canvas);
  }
}
