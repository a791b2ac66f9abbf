/** `Kaczmarz`: the row-projection step for a linear system a_i . x = b_i,
    and its use for optimisation with a_i the gradient and b_i = 0. */
module KaczmarzAlgorithm {
  import opened Wrappers
  import opened MathHelp
  import opened CostFunctions
  import opened PureAlgorithms

  const DEFAULT_RELAX_PARAM: real := 0.2

  /** The linear step `getAlgorithmStep(x, ai, bi)`: a_i scaled by
      (b_i - a_i.x)/||a_i||^2, the norm taken through `sqrt`. A zero row would
      divide by zero and is excluded. */
  function LinearStep(x: Vector, ai: Vector, bi: real, sqrt: real -> real): (r: Result<Vector>)
    requires IsSqrt(sqrt)
    requires |x| == |ai| ==> !IsZero(ai)
    ensures r.Err? <==> |x| != |ai|
    ensures r.Err? ==> r.error == IllegalArgument
    ensures r.Ok? ==> 0.0 < Dot(ai, ai) && r.value == Scale((bi - Dot(ai, x)) / Dot(ai, ai), ai)
  {
    if |x| != |ai| then Err(IllegalArgument)
    else
      var norm := EuclideanNorm(ai, sqrt);
      NormFacts(ai, sqrt);
      var squared := norm * norm;
      assert squared == Dot(ai, ai);
      Ok(Scale((bi - Dot(ai, x)) / squared, ai))
  }

  /** The step lands on the hyperplane a_i . x = b_i, and it is zero exactly
      when x is already there. */
  lemma LinearStepSolvesRow(x: Vector, ai: Vector, bi: real, sqrt: real -> real)
    requires IsSqrt(sqrt) && |x| == |ai| && !IsZero(ai)
    ensures var step := LinearStep(x, ai, bi, sqrt).value;
      && |step| == |x|
      && Dot(ai, Add(x, step)) == bi
      && (IsZero(step) <==> Dot(ai, x) == bi)
  {
    var step := LinearStep(x, ai, bi, sqrt).value;
    NormFacts(ai, sqrt);
    var c := (bi - Dot(ai, x)) / Dot(ai, ai);
    ScaledStepOnRow(x, ai, ai, c);
    assert c * Dot(ai, ai) == bi - Dot(ai, x);
    ScaledZero(c, ai);
  }

  /** a . (x + c p) = a . x + c (p . a). */
  lemma ScaledStepOnRow(x: Vector, a: Vector, p: Vector, c: real)
    requires |x| == |a| == |p|
    ensures Dot(a, Add(x, Scale(c, p))) == Dot(a, x) + c * Dot(p, a)
  {
    DotAddRight(a, x, Scale(c, p));
    DotSymmetric(a, Scale(c, p));
    DotScaleLeft(c, p, a);
  }

  /** A multiple of a non-zero vector is zero exactly when the factor is. */
  lemma ScaledZero(c: real, a: Vector)
    requires !IsZero(a)
    ensures IsZero(Scale(c, a)) <==> c == 0.0
  {
    if IsZero(Scale(c, a)) {
      var i :| 0 <= i < |a| && a[i] != 0.0;
      assert c * a[i] == 0.0;
    }
  }

  /** The training form of the step (a, p, b): p scaled by (b - a.x)/(p.a).
      It is called with four arguments where the library expects it; with
      p = a it is the linear step. */
  function TrainingStep(x: Vector, a: Vector, p: Vector, b: real): (r: Vector)
    requires |x| == |a| == |p| && Dot(p, a) != 0.0
    ensures |r| == |x|
    ensures Dot(a, Add(x, r)) == b
  {
    var c := (b - Dot(a, x)) / Dot(p, a);
    ScaledStepOnRow(x, a, p, c);
    Scale(c, p)
  }

  lemma TrainingStepGeneralisesLinearStep(x: Vector, a: Vector, b: real, sqrt: real -> real)
    requires IsSqrt(sqrt) && |x| == |a| && !IsZero(a)
    ensures 0.0 < Dot(a, a)
    ensures TrainingStep(x, a, a, b) == LinearStep(x, a, b, sqrt).value
  {
    NormFacts(a, sqrt);
  }

  /** The optimisation step `getAlgorithmStep(x, function)`: the linear step
      with a_i the gradient at x and b_i = 0. */
  function GradientStep(x: Vector, f: UndeterminateCostFunc, sqrt: real -> real): (r: Result<Vector>)
    requires IsSqrt(sqrt) && f.accuracy != 0.0 && 0 < f.dimension
    ensures r.Err? <==> f.GradientResult(x).Err?
    ensures r.Ok? ==> |r.value| == |x| && Dot(f.GradientResult(x).value, Add(x, r.value)) == 0.0
  {
    match f.GradientResult(x)
    case Err(e) => Err(e)
    case Ok(g) =>
      f.GradientNeverZero(x);
      LinearStepSolvesRow(x, g, 0.0, sqrt);
      LinearStep(x, g, 0.0, sqrt)
  }

  class Kaczmarz {
    var relaxationParameter: real
    var stopCriteria: CommonStopping

    /** The instance initialiser runs `setDefaultParameters`. */
    constructor()
      ensures relaxationParameter == DEFAULT_RELAX_PARAM
      ensures stopCriteria == DefaultCommonStopping()
    {
      relaxationParameter := DEFAULT_RELAX_PARAM;
      stopCriteria := DefaultCommonStopping();
    }

    /** `setDefaultParameters`: the common defaults, then the relaxation parameter. */
    method SetDefaultParameters()
      modifies this
      ensures relaxationParameter == DEFAULT_RELAX_PARAM
      ensures stopCriteria == DefaultCommonStopping()
    {
      stopCriteria := DefaultCommonStopping();
      relaxationParameter := DEFAULT_RELAX_PARAM;
    }

    /** `setParams`: exactly one value, the relaxation parameter. */
    method SetParams(params: seq<real>) returns (ok: bool)
      modifies this
      ensures ok <==> |params| == 1
      ensures relaxationParameter == (if ok then params[0] else old(relaxationParameter))
      ensures stopCriteria == old(stopCriteria)
    {
      if |params| != 1 {
        return false;
      }
      relaxationParameter := params[0];
      ok := true;
    }

    /** `isAble`: not yet able to optimise anything. */
    function IsAble(f: UndeterminateCostFunc): (r: bool)
      ensures !r
    {
      false
    }

    /** `configureStopCriteria` inherited from `PureAlgorithm`. */
    method ConfigureStopCriteria(error: real, conditions: seq<bool>) returns (r: Result<()>)
      modifies this
      ensures r.Err? <==> ConfiguredCommonStopping(error, conditions).Err?
      ensures r.Err? ==> r.error == IllegalArgument && stopCriteria == old(stopCriteria)
      ensures r.Ok? ==> stopCriteria == ConfiguredCommonStopping(error, conditions).value
      ensures relaxationParameter == old(relaxationParameter)
    {
      var s := ConfiguredCommonStopping(error, conditions);
      if s.Err? {
        return Err(s.error);
      }
      stopCriteria := s.value;
      r := Ok(());
    }

    /** The optimisation step: the gradient is computed (and may extend the
        cost function's memo table); the relaxation parameter is not used. */
    method AlgorithmStep(x: Vector, f: UndeterminateCostFunc, sqrt: real -> real) returns (r: Result<Vector>)
      requires IsSqrt(sqrt) && f.Valid() && 0 < f.dimension
      modifies f
      ensures f.Valid()
      ensures r == GradientStep(x, f, sqrt)
      ensures forall k | k in old(f.covered) :: k in f.covered && f.covered[k] == old(f.covered)[k]
    {
      var g := f.Gradient(x);
      if g.Err? {
        return Err(g.error);
      }
      f.GradientNeverZero(x);
      var norm := Norm(g.value, sqrt);
      var bi := 0.0;
      r := Ok(Scale((bi - Dot(g.value, x)) / (norm * norm), g.value));
    }
  }
}
