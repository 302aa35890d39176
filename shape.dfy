/** A geometry placed by a transform (src/imgstd/shape.rs). `Shape` is a plain
    copyable value in the source, so `pre_transform` is modelled as returning
    the updated value. */
module ImgShape {
  import opened ImgGeometry
  import opened ImgTransform

  datatype Shape = Shape(geometry: Geometry, transform: Transform)

  /** A shape placed where its geometry says, unmoved. */
  function WithGeometry(geometry: Geometry): (s: Shape)
    ensures s.geometry == geometry
    ensures forall p :: Maps(s.transform, p) == p
  {
    Shape(geometry, IDENTITY)
  }

  function New(geometry: Geometry, transform: Transform): (s: Shape)
    ensures s.geometry == geometry && s.transform == transform
  {
    Shape(geometry, transform)
  }

  /** Apply `pre` after the shape's own transform. */
  function PreTransform(s: Shape, pre: Transform): Shape {
    s.(transform := Mul(pre, s.transform))
  }

  /** `pre_transform` keeps the geometry, and the new transform moves a point
      first by the old transform, then by `pre`. */
  lemma PreTransformMaps(s: Shape, pre: Transform, p: Point)
    ensures PreTransform(s, pre).geometry == s.geometry
    ensures Maps(PreTransform(s, pre).transform, p) == Maps(pre, Maps(s.transform, p))
  {
    MulMaps(pre, s.transform, p);
  }

  /** Pre-transforming by `p`, then by `q`, is pre-transforming by `q * p`. */
  lemma PreTransformTwice(s: Shape, p: Transform, q: Transform)
    ensures PreTransform(PreTransform(s, p), q) == PreTransform(s, Mul(q, p))
    ensures PreTransform(PreTransform(s, p), q).transform == Mul(Mul(q, p), s.transform)
  {
    MulAssociative(q, p, s.transform);
  }

  lemma PreTransformIdentity(s: Shape)
    ensures PreTransform(s, IDENTITY) == s
  {
    IdentityIsNeutral(s.transform);
  }
}
