/** 2-D affine maps as kurbo stores them, and the scene's `Transform` wrapper
    around one (src/imgstd/transform.rs). Coefficients are exact reals. */
module ImgTransform {

  datatype Point = Point(x: real, y: real)

  /** kurbo's `Affine([a, b, c, d, e, f])`: it sends (x, y) to
      (a x + c y + e, b x + d y + f). */
  datatype Affine = Affine(a: real, b: real, c: real, d: real, e: real, f: real)

  /** `affine * point` in kurbo. */
  function Apply(m: Affine, p: Point): Point {
    Point(m.a * p.x + m.c * p.y + m.e, m.b * p.x + m.d * p.y + m.f)
  }

  /** `m * n` in kurbo: the map that applies `n` first, then `m`. */
  function Compose(m: Affine, n: Affine): Affine {
    Affine(m.a * n.a + m.c * n.b, m.b * n.a + m.d * n.b,
           m.a * n.c + m.c * n.d, m.b * n.c + m.d * n.d,
           m.a * n.e + m.c * n.f + m.e, m.b * n.e + m.d * n.f + m.f)
  }

  const AFFINE_IDENTITY: Affine := Affine(1.0, 0.0, 0.0, 1.0, 0.0, 0.0)

  /** kurbo's `Affine::FLIP_Y`: mirror in the x axis. */
  const FLIP_Y: Affine := Affine(1.0, 0.0, 0.0, -1.0, 0.0, 0.0)

  /** kurbo's `Affine::translate((x, y))`. */
  function AffineTranslate(x: real, y: real): Affine {
    Affine(1.0, 0.0, 0.0, 1.0, x, y)
  }

  lemma ComposeApplies(m: Affine, n: Affine, p: Point)
    ensures Apply(Compose(m, n), p) == Apply(m, Apply(n, p))
  {
    var q := Apply(n, p);
    assert m.a * q.x == m.a * n.a * p.x + m.a * n.c * p.y + m.a * n.e;
    assert m.c * q.y == m.c * n.b * p.x + m.c * n.d * p.y + m.c * n.f;
    assert m.b * q.x == m.b * n.a * p.x + m.b * n.c * p.y + m.b * n.e;
    assert m.d * q.y == m.d * n.b * p.x + m.d * n.d * p.y + m.d * n.f;
    assert (m.a * n.a + m.c * n.b) * p.x == m.a * n.a * p.x + m.c * n.b * p.x;
    assert (m.a * n.c + m.c * n.d) * p.y == m.a * n.c * p.y + m.c * n.d * p.y;
    assert (m.b * n.a + m.d * n.b) * p.x == m.b * n.a * p.x + m.d * n.b * p.x;
    assert (m.b * n.c + m.d * n.d) * p.y == m.b * n.c * p.y + m.d * n.d * p.y;
  }

  /** An affine map is determined by where it sends the origin and the two unit points. */
  lemma AffineExtensional(m: Affine, n: Affine)
    requires forall p :: Apply(m, p) == Apply(n, p)
    ensures m == n
  {
    var o := Apply(m, Point(0.0, 0.0));
    assert o == Apply(n, Point(0.0, 0.0));
    assert Apply(m, Point(1.0, 0.0)) == Apply(n, Point(1.0, 0.0));
    assert Apply(m, Point(0.0, 1.0)) == Apply(n, Point(0.0, 1.0));
  }

  /** The scene's transform: a wrapper around one kurbo affine map. */
  datatype Transform = Transform(inner: Affine)

  /** Where a transform sends a point. */
  function Maps(t: Transform, p: Point): Point {
    Apply(t.inner, p)
  }

  const IDENTITY: Transform := Transform(AFFINE_IDENTITY)

  /** Two transforms that move every point alike are the same transform. */
  lemma TransformExtensional(s: Transform, t: Transform)
    requires forall p :: Maps(s, p) == Maps(t, p)
    ensures s == t
  {
    assert forall p :: Apply(s.inner, p) == Maps(s, p);
    AffineExtensional(s.inner, t.inner);
  }

  /** The canvas pre-transform: the script's origin goes to the canvas centre
      and its y axis points up. */
  function GetPreTransform(canvasWidth: real, canvasHeight: real): Transform {
    var translation := AffineTranslate(canvasWidth / 2.0, canvasHeight / 2.0);
    var mirror := FLIP_Y;
    Transform(Compose(translation, mirror))
  }

  function Translate(x: real, y: real): Transform {
    Transform(AffineTranslate(x, y))
  }

  /** `self * rhs`: `rhs` acts first. */
  function Mul(self: Transform, rhs: Transform): Transform {
    Transform(Compose(self.inner, rhs.inner))
  }

  lemma GetPreTransformMaps(canvasWidth: real, canvasHeight: real, p: Point)
    ensures Maps(GetPreTransform(canvasWidth, canvasHeight), p) == Point(p.x + canvasWidth / 2.0, canvasHeight / 2.0 - p.y)
  {
  }

  lemma TranslateMaps(x: real, y: real, p: Point)
    ensures Maps(Translate(x, y), p) == Point(p.x + x, p.y + y)
  {
  }

  lemma MulMaps(self: Transform, rhs: Transform, p: Point)
    ensures Maps(Mul(self, rhs), p) == Maps(self, Maps(rhs, p))
  {
    ComposeApplies(self.inner, rhs.inner, p);
  }

  lemma IdentityFixesPoints(p: Point)
    ensures Maps(IDENTITY, p) == p
  {
  }

  lemma IdentityIsNeutral(t: Transform)
    ensures Mul(IDENTITY, t) == t && Mul(t, IDENTITY) == t
  {
  }

  lemma {:induction false} MulAssociative(a: Transform, b: Transform, c: Transform)
    ensures Mul(Mul(a, b), c) == Mul(a, Mul(b, c))
  {
    forall p
      ensures Maps(Mul(Mul(a, b), c), p) == Maps(Mul(a, Mul(b, c)), p)
    {
      MulMaps(Mul(a, b), c, p);
      MulMaps(a, b, Maps(c, p));
      MulMaps(a, Mul(b, c), p);
      MulMaps(b, c, p);
    }
    TransformExtensional(Mul(Mul(a, b), c), Mul(a, Mul(b, c)));
  }

  lemma TranslationsAdd(a: real, b: real, c: real, d: real)
    ensures Mul(Translate(a, b), Translate(c, d)) == Translate(a + c, b + d)
  {
  }

  /** The pre-transform of a `w` by `h` canvas sends the origin to the centre. */
  lemma PreTransformCentres(canvasWidth: real, canvasHeight: real)
    ensures Maps(GetPreTransform(canvasWidth, canvasHeight), Point(0.0, 0.0)) == Point(canvasWidth / 2.0, canvasHeight / 2.0)
  {
  }

  /** The pre-transform is the centring translation after the mirror. */
  lemma PreTransformIsTranslatedMirror(canvasWidth: real, canvasHeight: real)
    ensures GetPreTransform(canvasWidth, canvasHeight) == Mul(Translate(canvasWidth / 2.0, canvasHeight / 2.0), Transform(FLIP_Y))
  {
  }
}
