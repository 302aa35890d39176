/** The shapes a scene can hold (src/imgstd/geometry.rs): circles only. */
module ImgGeometry {

  datatype Circle = Circle(radius: real)

  datatype Geometry = CircleGeometry(circle: Circle)
}
