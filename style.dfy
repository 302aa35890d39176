/** Colours and stroke styles (src/imgstd/style.rs). The colour enum itself
    lives in a `color` module that is not part of this model; its three
    variants are the ones matched in src/context_artist.rs. */
module ImgStyle {

  datatype Color = Black | White | Red

  datatype Stroke = Stroke(width: real, color: Color)
}
