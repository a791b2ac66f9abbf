/** `CubicApproximation`: a one-dimensional search. It brackets a sign change
    of the derivative next to x, then narrows the bracket with the minimiser
    of a cubic through its ends (`calculatePolinomMin`, an oracle here).
    The "step" it hands back is a point, which `conductOneIteration` then
    adds to x; the model keeps that. */
module CubicApproximationAlgorithm {
  import opened Wrappers
  import opened MathHelp
  import StopCriteria
  import opened CostFunctions
  import opened PureAlgorithms

  const DEFAULT_H: real := 0.5

  /** The stop criteria a cubic search can hold: the inherited common ones, or
      `SimpleStopping`, which fires exactly when the search is done. */
  datatype CubicStopping = Common(common: CommonStopping) | Simple(error: real)

  /** `getError` of the installed criteria. */
  function ErrorOf(s: CubicStopping): (e: real)
    ensures s.Simple? ==> e == s.error
    ensures s.Common? ==> e == s.common.epsilon
  {
    match s
    case Common(c) => c.epsilon
    case Simple(e) => e
  }

  /** The derivatives at the probe point and at x do not have opposite
      signs: their product is not negative. */
  predicate NotOpposite(p: real, q: real) {
    p * q >= 0.0
  }

  /** The probe point and the bracket [a, b]: towards larger x when the
      derivative is negative, towards smaller x otherwise. */
  function Bracket(x: Vector, h: real, fDerX: real): (res: (Vector, real, real))
    requires |x| == 1
    ensures |res.0| == 1
    ensures fDerX < 0.0 ==> res.0[0] == x[0] + h && res.1 == x[0] && res.2 == res.0[0]
    ensures 0.0 <= fDerX ==> res.0[0] == x[0] - h && res.1 == res.0[0] && res.2 == x[0]
    ensures 0.0 <= h ==> res.1 <= res.2
  {
    if fDerX < 0.0 then
      var x1 := Add(x, [h]);
      (x1, x[0], x1[0])
    else
      var x1 := Sub(x, [h]);
      (x1, x1[0], x[0])
  }

  class CubicApproximation {
    var h: real
    var done: bool
    var stopCriteria: CubicStopping

    /** Field initialisers and the inherited `setDefaultParameters`. */
    constructor()
      ensures h == DEFAULT_H && !done
      ensures stopCriteria == Common(DefaultCommonStopping())
    {
      h := DEFAULT_H;
      done := false;
      stopCriteria := Common(DefaultCommonStopping());
    }

    /** The inherited `setDefaultParameters`. */
    method SetDefaultParameters()
      modifies this
      ensures stopCriteria == Common(DefaultCommonStopping())
      ensures h == old(h) && done == old(done)
    {
      stopCriteria := Common(DefaultCommonStopping());
    }

    /** `setParams`: exactly one value, the step h. */
    method SetParams(params: seq<real>) returns (ok: bool)
      modifies this
      ensures ok <==> |params| == 1
      ensures h == (if ok then params[0] else old(h))
      ensures done == old(done) && stopCriteria == old(stopCriteria)
    {
      if |params| != 1 {
        return false;
      }
      h := params[0];
      ok := true;
    }

    /** `isAble`: one-dimensional cost functions only. */
    function IsAble(f: UndeterminateCostFunc): (r: bool)
      ensures r <==> f.dimension == 1
    {
      f.dimension == 1
    }

    /** `configureStopCriteria`: `SimpleStopping` with the first error, or the
        default one; the flags are ignored and nothing is rejected. */
    method ConfigureStopCriteria(errors: seq<real>, conditions: seq<bool>)
      modifies this
      ensures stopCriteria.Simple?
      ensures stopCriteria.error == (if |errors| != 0 then errors[0] else StopCriteria.DEFAULT_ERROR)
      ensures h == old(h) && done == old(done)
    {
      if |errors| != 0 {
        stopCriteria := Simple(errors[0]);
      } else {
        stopCriteria := Simple(StopCriteria.DEFAULT_ERROR);
      }
    }

    /** `SimpleStopping.specifiedCriteria`. */
    predicate SimpleSpecified()
      reads this
      ensures SimpleSpecified() <==> done
    {
      done
    }

    /** The narrowing loop: while b - a exceeds the error, a moves to the cubic
        minimiser, and so does b when the derivative there is not negative.
        `fuel` bounds the number of rounds; running out is reported as an error. */
    static method NarrowBracket(a0: real, b0: real, error: real, f: UndeterminateCostFunc,
                                polinomMin: (real, real) -> real, fuel: nat)
      returns (r: Result<(real, real)>)
      requires f.Valid()
      modifies f
      ensures f.Valid()
      ensures forall k | k in old(f.covered) :: k in f.covered && f.covered[k] == old(f.covered)[k]
      ensures b0 - a0 <= error ==> r == Ok((a0, b0))
      ensures r.Ok? ==> r.value.1 - r.value.0 <= error
      ensures r.Ok? && 0.0 <= error ==> r.value.1 == b0 || r.value.0 == r.value.1
    {
      var a, b := a0, b0;
      var n := fuel;
      while b - a > error
        invariant f.Valid()
        invariant forall k | k in old(f.covered) :: k in f.covered && f.covered[k] == old(f.covered)[k]
        invariant 0.0 <= error ==> b == b0 || a == b
        invariant b0 - a0 <= error ==> a == a0 && b == b0
        decreases n
      {
        if n == 0 {
          return Err(Runtime);
        }
        n := n - 1;
        var pm := polinomMin(a, b);
        var fDerPol := f.PartialDerivative([pm], 0);
        if fDerPol.Err? {
          return Err(fDerPol.error);
        }
        if fDerPol.value < 0.0 {
          a := pm;
        } else {
          a := pm;
          b := a;
        }
      }
      r := Ok((a, b));
    }

    /** `getAlgorithmStep`; `a` and `b` also return the final bracket. */
    method AlgorithmStep(x: Vector, f: UndeterminateCostFunc, polinomMin: (real, real) -> real, fuel: nat)
      returns (r: Result<Vector>, a: real, b: real)
      requires f.Valid()
      modifies this, f
      ensures f.Valid()
      ensures forall k | k in old(f.covered) :: k in f.covered && f.covered[k] == old(f.covered)[k]
      ensures h == old(h) && stopCriteria == old(stopCriteria)
      ensures old(done) ==> done
      ensures r.Err? ==> done == old(done)
      ensures f.PartialDerivativeResult(x, 0).Err? ==> r == Err(f.PartialDerivativeResult(x, 0).error)
      ensures r.Ok? ==> |x| == 1 && |r.value| == 1 && f.PartialDerivativeResult(x, 0).Ok?
      ensures r.Ok? ==>
        var fDerX := f.PartialDerivativeResult(x, 0).value;
        var bracket := Bracket(x, h, fDerX);
        && f.PartialDerivativeResult(bracket.0, 0).Ok?
        && (NotOpposite(f.PartialDerivativeResult(bracket.0, 0).value, fDerX) ==>
              r.value == bracket.0 && done == old(done))
        && (!NotOpposite(f.PartialDerivativeResult(bracket.0, 0).value, fDerX) ==>
              && done
              && r.value == [(a + b) / 2.0]
              && b - a <= ErrorOf(stopCriteria)
              && (0.0 <= ErrorOf(stopCriteria) ==> b == bracket.2 || a == b))
    {
      a, b := 0.0, 0.0;
      var fDerX := f.PartialDerivative(x, 0);
      if fDerX.Err? {
        return Err(fDerX.error), a, b;
      }
      if |x| != 1 {
        return Err(IllegalArgument), a, b;
      }
      var bracket := Bracket(x, h, fDerX.value);
      var x1, lo, hi := bracket.0, bracket.1, bracket.2;
      var fDerX1 := f.PartialDerivative(x1, 0);
      if fDerX1.Err? {
        return Err(fDerX1.error), a, b;
      }
      if NotOpposite(fDerX1.value, fDerX.value) {
        return Ok(x1), lo, hi;
      }
      var narrowed := NarrowBracket(lo, hi, ErrorOf(stopCriteria), f, polinomMin, fuel);
      if narrowed.Err? {
        return Err(narrowed.error), a, b;
      }
      a, b := narrowed.value.0, narrowed.value.1;
      done := true;
      r := Ok([(b + a) / 2.0]);
    }
  }
}
