/** External inputs a script can declare (src/input.rs), and the values a
    caller supplies for them. */
module ImgInput {
  import opened Numbers
  import opened ImgStyle

  /** The declared kind and range of an external input. */
  datatype ExternalInput =
    | IntInput(intMin: i64, intMax: i64)
    | FloatInput(floatMin: real, floatMax: real)
    | ColorInput(color: Color)

  /** A value supplied for an external input. */
  datatype InputValue = IntValue(i: i64) | FloatValue(r: real) | ColorValue(c: Color)

  /** The supplied values, by script variable name. */
  type Inputs = map<string, InputValue>
}
