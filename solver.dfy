/** The solver (src/solver.rs): a frame counter, and `solve`, which hands a
    script to the script engine with a resolver for the supplied inputs and
    the constant `TIME`, then renders the canvas the script evaluates to.
    The engine itself is a parameter: a function from the script, the
    resolver and `TIME` to an evaluation result. */
module Solving {
  import opened Numbers
  import opened ImgInput
  import opened ImgStd
  import opened ContextArtist

  datatype Option<T> = None | Some(value: T)

  /** A script value the resolver can hand back. */
  datatype Dynamic = DynInt(i: i64) | DynFloat(r: real)

  /** The resolver's answer for a variable name: a value, "not mine" (the
      engine's normal lookup goes on), or the unimplemented colour case,
      which aborts. */
  datatype Resolution = Resolved(value: Dynamic) | Unresolved | Unimplemented

  /** The resolver `solve` installs. */
  function Resolve(inputs: Inputs, name: string): (r: Resolution)
    ensures name !in inputs <==> r == Unresolved
    ensures name in inputs && inputs[name].IntValue? ==> r == Resolved(DynInt(inputs[name].i))
    ensures name in inputs && inputs[name].FloatValue? ==> r == Resolved(DynFloat(inputs[name].r))
    ensures r.Unimplemented? <==> name in inputs && inputs[name].ColorValue?
  {
    if name in inputs then
      match inputs[name]
      case IntValue(v) => Resolved(DynInt(v))
      case FloatValue(v) => Resolved(DynFloat(v))
      case ColorValue(_) => Unimplemented
    else
      Unresolved
  }

  function Resolver(inputs: Inputs): string -> Resolution {
    name => Resolve(inputs, name)
  }

  /** The value of the script constant `TIME`: the frame counter widened to i64. */
  function TimeConstant(frameCount: u32): (time: i64)
    ensures 0 <= time < U32_MODULUS && time == frameCount
  {
    frameCount as int
  }

  /** `u32::wrapping_add(1)`. */
  function WrappingIncrement(x: u32): (r: u32)
    ensures x < U32_MODULUS - 1 ==> r == x + 1
    ensures x == U32_MODULUS - 1 ==> r == 0
  {
    (x + 1) % U32_MODULUS
  }

  /** What the engine makes of a script: the canvas it evaluates to, or an error. */
  datatype Evaluation = Evaluated(context: Context) | EvalError(message: string)

  type Engine = (string, string -> Resolution, i64) -> Evaluation

  datatype SolveResult = Solved(writer: SvgImageWriter) | Failed(message: string)

  class Solver {
    var frameCount: u32
    /** The inputs the engine's installed variable resolver answers from, if any. */
    var resolverInputs: Option<Inputs>

    constructor ()
      ensures frameCount == 0 && resolverInputs == None
    {
      frameCount := 0;
      resolverInputs := None;
    }

    /** Evaluate `script` with a resolver for `inputs` and `TIME` bound to the
        frame counter, then render the canvas it evaluates to. The frame
        counter does not change. */
    method Solve(script: string, inputs: Inputs, engine: Engine) returns (result: SolveResult)
      modifies this
      ensures frameCount == old(frameCount)
      ensures resolverInputs == Some(inputs)
      ensures var evaluation := engine(script, Resolver(inputs), TimeConstant(frameCount));
        && (evaluation.EvalError? <==> result.Failed?)
        && (evaluation.EvalError? ==> result.message == evaluation.message)
        && (evaluation.Evaluated? ==>
              && fresh(result.writer) && fresh(result.writer.rc)
              && result.writer.rc.width == evaluation.context.canvasWidth as real
              && result.writer.rc.height == evaluation.context.canvasHeight as real
              && result.writer.rc.commands
                 == Rendering(evaluation.context.canvasWidth as real, evaluation.context.canvasHeight as real,
                              evaluation.context.shapes))
    {
      resolverInputs := Some(inputs);
      var time := TimeConstant(frameCount);
      var evaluation := engine(script, Resolver(inputs), time);
      match evaluation
      case EvalError(message) =>
        result := Failed(message);
      case Evaluated(context) =>
        var writer := DrawContextToSvg(context);
        result := Solved(writer);
    }

    method AdvanceTime()
      modifies this
      ensures frameCount == WrappingIncrement(old(frameCount))
      ensures resolverInputs == old(resolverInputs)
    {
      frameCount := WrappingIncrement(frameCount);
    }

    method ResetTime()
      modifies this
      ensures frameCount == 0
      ensures resolverInputs == old(resolverInputs)
    {
      frameCount := 0;
    }

    method GetTime() returns (time: u32)
      ensures time == frameCount
    {
      time := frameCount;
    }
  }

  /** A fresh solver counts frames from 0; advancing from the largest u32 wraps to 0.
      Setting `frameCount` to 2^32 - 1 directly stands for the 2^32 - 1 calls
      of `advance_time` that reach it from a fresh solver (the field is
      private in the solver itself). */
  method CountFrames() returns (first: u32, second: u32, wrapped: u32)
    ensures first == 0 && second == 1 && wrapped == 0
  {
    var solver := new Solver();
    first := solver.GetTime();
    solver.AdvanceTime();
    second := solver.GetTime();
    solver.frameCount := U32_MODULUS - 1;
    solver.AdvanceTime();
    wrapped := solver.GetTime();
  }
}
