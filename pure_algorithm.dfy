/** What `PureAlgorithm` gives every single-method algorithm: one iteration
    (step, then pull back into the domain) and the `CommonStopping` criteria.
    The trajectory of the running procedure is handed to the checks as
    `points`, oldest first; the cost function supplies the rule and the
    derivative oracle. */
module PureAlgorithms {
  import opened Wrappers
  import opened MathHelp
  import StopCriteria
  import opened CostFunctions

  /** `Math.abs`. */
  function Abs(x: real): (r: real)
    ensures 0.0 <= r && (r == x || r == -x)
  {
    if x < 0.0 then -x else x
  }

  function Last(points: seq<Vector>): Vector
    requires 1 <= |points|
  {
    points[|points| - 1]
  }

  function BeforeLast(points: seq<Vector>): Vector
    requires 2 <= |points|
  {
    points[|points| - 2]
  }

  // --------------------------------------------------------- one iteration

  /** `conductOneIteration` once the algorithm has produced `step`: x + step
      when the cost is defined there, otherwise the nearest domain point from
      x + step towards x. A step of another dimension is rejected by the
      vector addition. */
  function IterationResult(x: Vector, step: Vector, f: UndeterminateCostFunc): (r: Result<Vector>)
    ensures |step| != |x| ==> r == Err(IllegalArgument)
    ensures |step| == |x| && f.Defined(Add(x, step)) ==> r == Ok(Add(x, step))
    ensures r.Ok? ==> |r.value| == |x| && (f.Defined(r.value) || r.value == x)
    ensures f.Defined(x) && |x| == f.dimension && |step| == |x| ==> r.Ok? && f.Defined(r.value)
  {
    if |step| != |x| then Err(IllegalArgument)
    else
      var res := Add(x, step);
      if f.Defined(res) then Ok(res) else f.NearestDomainPointResult(res, x)
  }

  method ConductOneIteration(x: Vector, step: Vector, f: UndeterminateCostFunc) returns (r: Result<Vector>)
    requires f.Valid()
    modifies f
    ensures f.Valid()
    ensures r == IterationResult(x, step, f)
    ensures forall k | k in old(f.covered) :: k in f.covered && f.covered[k] == old(f.covered)[k]
  {
    if |step| != |x| {
      return Err(IllegalArgument);
    }
    var res := Add(x, step);
    if f.rule(res).None? {
      r := f.GetNearestDomainPoint(res, x);
    } else {
      r := Ok(res);
    }
  }

  // ------------------------------------------------------- CommonStopping

  /** `CommonStopping`: four switchable checks and the error they use. */
  datatype CommonStopping = CommonStopping(
    byDecisionProximity: bool,
    byCostFuncChangeRate: bool,
    byArgumentsChangeRate: bool,
    byConstraintsFulfillment: bool,
    epsilon: real)

  /** The four-flag constructor; `epsilon` keeps `DEFAULT_ERROR`. */
  function CommonStoppingOf(byDecisionProximity: bool, byCostFuncChangeRate: bool,
                            byArgumentsChangeRate: bool, byConstraintsFulfillment: bool): (s: CommonStopping)
    ensures s.epsilon == StopCriteria.DEFAULT_ERROR
    ensures s.byDecisionProximity == byDecisionProximity && s.byCostFuncChangeRate == byCostFuncChangeRate
    ensures s.byArgumentsChangeRate == byArgumentsChangeRate && s.byConstraintsFulfillment == byConstraintsFulfillment
  {
    CommonStopping(byDecisionProximity, byCostFuncChangeRate, byArgumentsChangeRate, byConstraintsFulfillment,
                   StopCriteria.DEFAULT_ERROR)
  }

  /** The five-argument constructor as written: it sets `epsilon` and then
      builds a second object with the flags and drops it, so the flags of the
      object under construction keep their initial value `false`. */
  function CommonStoppingWithErrorAsWritten(byDecisionProximity: bool, byCostFuncChangeRate: bool,
                                            byArgumentsChangeRate: bool, byConstraintsFulfillment: bool,
                                            error: real): (s: CommonStopping)
    ensures s.epsilon == error
    ensures !s.byDecisionProximity && !s.byCostFuncChangeRate
    ensures !s.byArgumentsChangeRate && !s.byConstraintsFulfillment
  {
    var discarded := CommonStoppingOf(byDecisionProximity, byCostFuncChangeRate,
                                      byArgumentsChangeRate, byConstraintsFulfillment);
    CommonStopping(false, false, false, false, error)
  }

  /** The five-argument constructor as intended: the four flags and the error. */
  function CommonStoppingWithError(byDecisionProximity: bool, byCostFuncChangeRate: bool,
                                   byArgumentsChangeRate: bool, byConstraintsFulfillment: bool,
                                   error: real): (s: CommonStopping)
    ensures s.epsilon == error
    ensures s == CommonStoppingOf(byDecisionProximity, byCostFuncChangeRate,
                                  byArgumentsChangeRate, byConstraintsFulfillment).(epsilon := error)
  {
    CommonStopping(byDecisionProximity, byCostFuncChangeRate, byArgumentsChangeRate, byConstraintsFulfillment, error)
  }

  /** `setDefaultParameters`: all four checks with the default error. */
  function DefaultCommonStopping(): (s: CommonStopping)
    ensures s.byDecisionProximity && s.byCostFuncChangeRate && s.byArgumentsChangeRate && s.byConstraintsFulfillment
    ensures s.epsilon == 0.1
  {
    CommonStoppingOf(true, true, true, true)
  }

  /** `configureStopCriteria`: exactly four flags, in the order decision
      proximity, cost change rate, arguments change rate, constraints. */
  function ConfiguredCommonStopping(error: real, conditions: seq<bool>): (r: Result<CommonStopping>)
    ensures r.Err? <==> |conditions| != 4
    ensures r.Err? ==> r.error == IllegalArgument
    ensures r.Ok? ==>
      && r.value.epsilon == error
      && r.value.byDecisionProximity == conditions[0]
      && r.value.byCostFuncChangeRate == conditions[1]
      && r.value.byArgumentsChangeRate == conditions[2]
      && r.value.byConstraintsFulfillment == conditions[3]
  {
    if |conditions| != 4 then Err(IllegalArgument)
    else Ok(CommonStoppingWithError(conditions[0], conditions[1], conditions[2], conditions[3], error))
  }

  /** The single error a pure algorithm takes out of the `errors` array of
      the `Algorithm` interface: the first one, or the default when empty. */
  function FirstError(errors: seq<real>): (e: real)
    ensures |errors| == 0 ==> e == StopCriteria.DEFAULT_ERROR
    ensures 0 < |errors| ==> e == errors[0]
  {
    if |errors| == 0 then StopCriteria.DEFAULT_ERROR else errors[0]
  }

  // --------------------------------------------------------------- checks

  /** What the rate checks read: two points, both in the domain, one dimension. */
  predicate Checkable(points: seq<Vector>, f: UndeterminateCostFunc) {
    && 2 <= |points|
    && f.Defined(Last(points)) && f.Defined(BeforeLast(points))
    && |Last(points)| == |BeforeLast(points)|
  }

  /** `checkForDecisionProximity`: the derivative at the last point is within epsilon. */
  predicate DecisionProximity(s: CommonStopping, points: seq<Vector>, f: UndeterminateCostFunc)
    requires 1 <= |points|
    ensures DecisionProximity(s, points, f) <==> -s.epsilon <= f.derivative(Last(points)) <= s.epsilon
    ensures s.epsilon < 0.0 ==> !DecisionProximity(s, points, f)
  {
    Abs(f.derivative(Last(points))) <= s.epsilon
  }

  /** `checkForConstraintsFulfillment`: constraints are not yet considered. */
  function ConstraintsFulfillment(points: seq<Vector>): (r: bool)
    ensures r
  {
    true
  }

  /** `checkForCostFuncChangeRate`, with epsilon1 = 100 epsilon. */
  predicate CostFuncChangeRate(s: CommonStopping, points: seq<Vector>, f: UndeterminateCostFunc)
    requires Checkable(points, f)
    ensures CostFuncChangeRate(s, points, f) ==> 0.0 <= s.epsilon
    ensures f.rule(Last(points)) == f.rule(BeforeLast(points)) ==> (CostFuncChangeRate(s, points, f) <==> 0.0 <= s.epsilon)
  {
    var fk := f.rule(Last(points)).value;
    var fkMinus := f.rule(BeforeLast(points)).value;
    ScaledSign(100.0 * s.epsilon, 1.0 + Abs(fk));
    Abs(fkMinus - fk) <= 100.0 * s.epsilon * (1.0 + Abs(fk))
  }

  /** A factor 1 + |x| >= 1 keeps the sign of what it multiplies. */
  lemma ScaledSign(c: real, a: real)
    ensures 1.0 <= a ==> (0.0 <= c * a <==> 0.0 <= c)
  {
    if 1.0 <= a {
      if 0.0 < c {
        MulPositive(c, a);
      } else if c < 0.0 {
        MulPositive(-c, a);
        assert Mul(-c, a) == -(c * a);
      }
    }
  }

  /** `ScaledSign` at every coordinate of a point. */
  lemma ScaledSignAll(delta: real, xs: Vector)
    ensures forall i | 0 <= i < |xs| :: 0.0 <= delta * (1.0 + Abs(xs[i])) <==> 0.0 <= delta
  {
    forall i | 0 <= i < |xs|
      ensures 0.0 <= delta * (1.0 + Abs(xs[i])) <==> 0.0 <= delta
    {
      ScaledSign(delta, 1.0 + Abs(xs[i]));
    }
  }

  /** `checkForArgumentsChangeRate` as a value: every coordinate moved by at
      most delta (1 + |x_k[i]|), with delta = sqrt(100 epsilon). */
  predicate ArgumentsChangeRate(s: CommonStopping, points: seq<Vector>, sqrt: real -> real)
    requires 2 <= |points| && |Last(points)| == |BeforeLast(points)|
    ensures 0 < |Last(points)| && sqrt(100.0 * s.epsilon) < 0.0 ==> !ArgumentsChangeRate(s, points, sqrt)
    ensures Last(points) == BeforeLast(points) ==>
      (ArgumentsChangeRate(s, points, sqrt) <==> |Last(points)| == 0 || 0.0 <= sqrt(100.0 * s.epsilon))
  {
    var xk := Last(points);
    var xkMinus := BeforeLast(points);
    var delta := sqrt(100.0 * s.epsilon);
    ScaledSignAll(delta, xk);
    assert 0 < |xk| ==> 0.0 <= Abs(xkMinus[0] - xk[0]);
    forall i | 0 <= i < |xk| :: Abs(xkMinus[i] - xk[i]) <= delta * (1.0 + Abs(xk[i]))
  }

  /** `checkForArgumentsChangeRate`: scans the difference and stops at the
      first coordinate that moved too far. */
  method CheckForArgumentsChangeRate(s: CommonStopping, points: seq<Vector>, sqrt: real -> real) returns (res: bool)
    requires 2 <= |points| && |Last(points)| == |BeforeLast(points)|
    ensures res == ArgumentsChangeRate(s, points, sqrt)
  {
    var delta := sqrt(100.0 * s.epsilon);
    var xk := Last(points);
    var xkMinus := BeforeLast(points);
    res := true;
    var subtraction := Sub(xkMinus, xk);
    var i := 0;
    while i < |subtraction|
      invariant 0 <= i <= |subtraction|
      invariant forall k | 0 <= k < i :: Abs(xkMinus[k] - xk[k]) <= delta * (1.0 + Abs(xk[k]))
    {
      if Abs(subtraction[i]) > delta * (1.0 + Abs(xk[i])) {
        res := false;
        break;
      }
      i := i + 1;
    }
  }

  /** `specifiedCriteria` as a value: a switched-off check counts as passed. */
  predicate Specified(s: CommonStopping, points: seq<Vector>, f: UndeterminateCostFunc, sqrt: real -> real)
    requires Checkable(points, f)
    ensures s.byDecisionProximity && s.byCostFuncChangeRate && s.byArgumentsChangeRate ==>
      (Specified(s, points, f, sqrt) <==>
        DecisionProximity(s, points, f) || (CostFuncChangeRate(s, points, f) && ArgumentsChangeRate(s, points, sqrt)))
  {
    var decisionProximity := !s.byDecisionProximity || DecisionProximity(s, points, f);
    var constraintsFulfillment := !s.byConstraintsFulfillment || ConstraintsFulfillment(points);
    var costFuncChangeRate := !s.byCostFuncChangeRate || CostFuncChangeRate(s, points, f);
    var argumentsChangeRate := !s.byArgumentsChangeRate || ArgumentsChangeRate(s, points, sqrt);
    (decisionProximity && constraintsFulfillment) || (costFuncChangeRate && argumentsChangeRate)
  }

  /** `specifiedCriteria`: each switched-on check is evaluated, the argument
      scan only when its flag is set. */
  method SpecifiedCriteria(s: CommonStopping, points: seq<Vector>, f: UndeterminateCostFunc, sqrt: real -> real)
    returns (r: bool)
    requires Checkable(points, f)
    ensures r == Specified(s, points, f, sqrt)
  {
    var decisionProximity := !s.byDecisionProximity || DecisionProximity(s, points, f);
    var constraintsFulfillment := !s.byConstraintsFulfillment || ConstraintsFulfillment(points);
    var costFuncChangeRate := !s.byCostFuncChangeRate || CostFuncChangeRate(s, points, f);
    var argumentsChangeRate := true;
    if s.byArgumentsChangeRate {
      argumentsChangeRate := CheckForArgumentsChangeRate(s, points, sqrt);
    }
    r := (decisionProximity && constraintsFulfillment) || (costFuncChangeRate && argumentsChangeRate);
  }

  /** `isAchieved` of a `CommonStopping`: the template of `StopCriteria` with
      `specifiedCriteria` consulted from two points on. */
  predicate CommonAchieved(s: CommonStopping, points: seq<Vector>, f: UndeterminateCostFunc, sqrt: real -> real)
    requires 2 <= |points| ==> Checkable(points, f)
    ensures |points| < 2 ==> !CommonAchieved(s, points, f, sqrt)
    ensures 2 <= |points| ==>
      (CommonAchieved(s, points, f, sqrt) <==> Specified(s, points, f, sqrt) || StopCriteria.MAX_ITERATIONS_NUM <= |points|)
  {
    StopCriteria.IsAchieved(|points|, 2 <= |points| && Specified(s, points, f, sqrt))
  }

  // --------------------------------------------------------------- lemmas

  /** The constraints flag never changes the answer: the decision is
      decision proximity, or both rate checks. */
  lemma SpecifiedIgnoresConstraints(s: CommonStopping, points: seq<Vector>, f: UndeterminateCostFunc, sqrt: real -> real)
    requires Checkable(points, f)
    ensures Specified(s, points, f, sqrt) <==>
      || (!s.byDecisionProximity || DecisionProximity(s, points, f))
      || ((!s.byCostFuncChangeRate || CostFuncChangeRate(s, points, f))
          && (!s.byArgumentsChangeRate || ArgumentsChangeRate(s, points, sqrt)))
    ensures Specified(s, points, f, sqrt) == Specified(s.(byConstraintsFulfillment := !s.byConstraintsFulfillment), points, f, sqrt)
  {
  }

  /** With the decision-proximity check or both rate checks switched off, the
      criteria are met at every consultation. */
  lemma SwitchedOffChecksPass(s: CommonStopping, points: seq<Vector>, f: UndeterminateCostFunc, sqrt: real -> real)
    requires Checkable(points, f)
    requires !s.byDecisionProximity || (!s.byCostFuncChangeRate && !s.byArgumentsChangeRate)
    ensures Specified(s, points, f, sqrt)
    ensures CommonAchieved(s, points, f, sqrt)
  {
  }

  /** A trajectory that stood still passes both rate checks for a
      non-negative error. */
  lemma StationaryPassesRateChecks(s: CommonStopping, points: seq<Vector>, f: UndeterminateCostFunc, sqrt: real -> real)
    requires IsSqrt(sqrt) && 0.0 <= s.epsilon
    requires Checkable(points, f) && Last(points) == BeforeLast(points)
    ensures CostFuncChangeRate(s, points, f) && ArgumentsChangeRate(s, points, sqrt)
  {
    var fk := f.rule(Last(points)).value;
    assert 0.0 <= 100.0 * s.epsilon;
    assert 0.0 <= 100.0 * s.epsilon * (1.0 + Abs(fk)) by {
      MulNonNegative(100.0 * s.epsilon, 1.0 + Abs(fk));
    }
    var delta := sqrt(100.0 * s.epsilon);
    assert 0.0 <= delta;
    forall i | 0 <= i < |Last(points)|
      ensures Abs(BeforeLast(points)[i] - Last(points)[i]) <= delta * (1.0 + Abs(Last(points)[i]))
    {
      MulNonNegative(delta, 1.0 + Abs(Last(points)[i]));
    }
  }

  lemma MulNonNegative(a: real, b: real)
    requires 0.0 <= a && 0.0 <= b
    ensures 0.0 <= a * b
  {
    if 0.0 < a && 0.0 < b {
      MulPositive(a, b);
    }
  }

  /** The five-argument constructor as written ignores its flags: every
      consultation of such criteria answers "stop". */
  lemma AsWrittenStopsAtFirstConsultation(byDecisionProximity: bool, byCostFuncChangeRate: bool,
                                          byArgumentsChangeRate: bool, byConstraintsFulfillment: bool,
                                          error: real, points: seq<Vector>,
                                          f: UndeterminateCostFunc, sqrt: real -> real)
    requires Checkable(points, f)
    ensures CommonAchieved(CommonStoppingWithErrorAsWritten(byDecisionProximity, byCostFuncChangeRate,
                             byArgumentsChangeRate, byConstraintsFulfillment, error), points, f, sqrt)
  {
    SwitchedOffChecksPass(CommonStoppingWithErrorAsWritten(byDecisionProximity, byCostFuncChangeRate,
                            byArgumentsChangeRate, byConstraintsFulfillment, error), points, f, sqrt);
  }

  /** Where the two constructors part: on a trajectory whose derivative and
      cost change are both still too large, the configured criteria say
      "continue", the as-written object says "stop". */
  lemma AsWrittenDiffersFromIntended(error: real, points: seq<Vector>, f: UndeterminateCostFunc, sqrt: real -> real)
    requires Checkable(points, f) && |points| < StopCriteria.MAX_ITERATIONS_NUM
    requires !DecisionProximity(CommonStoppingWithError(true, true, true, true, error), points, f)
    requires !CostFuncChangeRate(CommonStoppingWithError(true, true, true, true, error), points, f)
    ensures !CommonAchieved(CommonStoppingWithError(true, true, true, true, error), points, f, sqrt)
    ensures CommonAchieved(CommonStoppingWithErrorAsWritten(true, true, true, true, error), points, f, sqrt)
  {
    AsWrittenStopsAtFirstConsultation(true, true, true, true, error, points, f, sqrt);
  }
}
