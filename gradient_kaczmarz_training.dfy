/** `GradientKaczmarzTraining`: a gradient method whose search direction is
    trained by Kaczmarz steps. Every inner round moves the direction d so that
    the current gradient g meets it with g.d = 1. The training vector is g,
    reflected against the previous gradient when the two disagree. The M1 stop
    rule then decides when an outer round ends and the direction restarts
    from zero. The one-dimensional search for the step length gamma is an
    oracle of the point and the new direction. */
module GradientKaczmarzTrainingAlgorithm {
  import opened Wrappers
  import opened MathHelp
  import opened Configurations
  import opened CostFunctions
  import opened PureAlgorithms
  import opened KaczmarzAlgorithm
  import opened CubicApproximationAlgorithm
  import opened Queues
  import opened VaryingParameters

  const MAX_SUBGRAD_NUM: int := 5

  const LONG_MIN: int := -0x8000_0000_0000_0000
  const LONG_MAX: int := 0x7fff_ffff_ffff_ffff

  // ------------------------------------------------ Java integer conversions

  /** `Math.round(double)`: the floor of x + 1/2, saturated to the `long` range. */
  function JavaRound(x: real): (n: int)
    ensures LONG_MIN <= n <= LONG_MAX
    ensures LONG_MIN <= (x + 0.5).Floor <= LONG_MAX ==> n as real <= x + 0.5 < n as real + 1.0
  {
    var n := (x + 0.5).Floor;
    if n < LONG_MIN then LONG_MIN else if LONG_MAX < n then LONG_MAX else n
  }

  /** A narrowing to `int`, and the wrap-around of `int` arithmetic: the low
      32 bits, read as a signed value. */
  function ToInt32(n: int): (r: int)
    ensures INT_MIN <= r <= INT_MAX
    ensures (n - r) % 0x1_0000_0000 == 0
    ensures INT_MIN <= n <= INT_MAX ==> r == n
  {
    var m := n % 0x1_0000_0000;
    if INT_MAX < m then m - 0x1_0000_0000 else m
  }

  /** k, the number of outer rounds, as `(int) Math.round(errors[1])`. */
  function RoundCount(e: real): (k: int)
    ensures INT_MIN <= k <= INT_MAX
    ensures INT_MIN as real <= e + 0.5 < INT_MAX as real + 1.0 ==> k as real <= e + 0.5 < k as real + 1.0
  {
    ToInt32(JavaRound(e))
  }

  // ------------------------------------------------- configureStopCriteria

  /** The e_k and m_k queues `configureStopCriteria` fills from `errors`, or its
      rejection of `errors`. Entry j (from 2 on) goes to e_k exactly when
      j < k + 2, computed in `int` arithmetic. */
  function ErrorQueues(errors: seq<real>): (r: Result<(seq<real>, seq<real>)>)
    ensures r.Err? <==> |errors| < 2 || |errors| != ToInt32(2 * RoundCount(errors[1]) + 2)
    ensures r.Err? ==> r.error == IllegalArgument
    ensures r.Ok? ==> r.value.0 + r.value.1 == errors[2..]
    ensures r.Ok? ==>
      var bound := ToInt32(RoundCount(errors[1]) + 2);
      && (bound <= 2 ==> r.value.0 == [])
      && (|errors| <= bound ==> r.value.1 == [])
      && (2 <= bound <= |errors| ==> |r.value.0| == bound - 2)
  {
    if |errors| < 2 then Err(IllegalArgument)
    else
      var k := RoundCount(errors[1]);
      if |errors| != ToInt32(2 * k + 2) then Err(IllegalArgument)
      else
        var bound := ToInt32(k + 2);
        var split := if bound < 2 then 2 else if |errors| < bound then |errors| else bound;
        assert errors[2..split] + errors[split..] == errors[2..];
        Ok((errors[2..split], errors[split..]))
  }

  /** With k written as a whole number and 2k + 2 entries, e_k takes the k
      values after k and m_k the k values after those. */
  lemma WellFormedErrorsSplitEvenly(errors: seq<real>, k: nat)
    requires 2 * k + 2 <= INT_MAX && |errors| == 2 * k + 2 && errors[1] == k as real
    ensures ErrorQueues(errors).Ok?
    ensures ErrorQueues(errors).value == (errors[2..k + 2], errors[k + 2..])
    ensures |ErrorQueues(errors).value.0| == k && |ErrorQueues(errors).value.1| == k
  {
    assert JavaRound(k as real) == k;
    assert RoundCount(errors[1]) == k;
  }

  /** The base criteria `configureStopCriteria` puts under M1: none for the single
      flag `false`; for six flags, the common criteria with the error, switched
      on flag by flag when the first flag is set and all off otherwise. The
      fifth flag, `byArgumentsChangeNorm`, has no check in `CommonStopping`. */
  function ConfiguredBase(error: real, conditions: seq<bool>): (r: Result<Option<CommonStopping>>)
    ensures r.Err? <==> (|conditions| != 1 || conditions[0]) && |conditions| != 6
    ensures r.Err? ==> r.error == IllegalArgument
    ensures r.Ok? && |conditions| == 1 ==> r.value.None?
    ensures r.Ok? && |conditions| == 6 ==> r.value.Some? && r.value.value.epsilon == error
    ensures |conditions| == 6 && !conditions[0] ==>
      var s := r.value.value;
      !s.byDecisionProximity && !s.byCostFuncChangeRate && !s.byArgumentsChangeRate && !s.byConstraintsFulfillment
    ensures |conditions| == 6 && conditions[0] ==>
      var s := r.value.value;
      && s.byDecisionProximity == conditions[1] && s.byCostFuncChangeRate == conditions[2]
      && s.byArgumentsChangeRate == conditions[3] && s.byConstraintsFulfillment == conditions[5]
  {
    if |conditions| == 1 && !conditions[0] then Ok(None)
    else if |conditions| == 6 then
      if conditions[0] then
        Ok(Some(CommonStoppingWithError(conditions[1], conditions[2], conditions[3], conditions[5], error)))
      else Ok(Some(CommonStoppingWithError(false, false, false, false, error)))
    else Err(IllegalArgument)
  }

  // ------------------------------------------------ subgradient selection

  predicate SameDimension(direction: Vector, gs: seq<Vector>) {
    forall k | 0 <= k < |gs| :: |gs[k]| == |direction|
  }

  predicate PointsAlong(direction: Vector, g: Vector)
    requires |g| == |direction|
  {
    0.0 < Dot(direction, g)
  }

  /** The subgradient comparator: o1 goes first exactly when it does not point
      along the direction and o2 does. */
  function SubgradCompare(direction: Vector, o1: Vector, o2: Vector): (res: int)
    requires |o1| == |direction| && |o2| == |direction|
    ensures -1 <= res <= 1
    ensures res == -1 <==> !PointsAlong(direction, o1) && PointsAlong(direction, o2)
    ensures res == 1 <==> !PointsAlong(direction, o2) && PointsAlong(direction, o1)
  {
    if Dot(direction, o1) <= 0.0 && 0.0 < Dot(direction, o2) then -1
    else if Dot(direction, o2) <= 0.0 && 0.0 < Dot(direction, o1) then 1
    else 0
  }

  /** The subgradients that do not point along the direction, in their order. */
  function Against(direction: Vector, gs: seq<Vector>): (r: seq<Vector>)
    requires SameDimension(direction, gs)
    ensures SameDimension(direction, r)
    ensures forall k | 0 <= k < |r| :: !PointsAlong(direction, r[k])
  {
    if |gs| == 0 then []
    else (if PointsAlong(direction, gs[0]) then [] else [gs[0]]) + Against(direction, gs[1..])
  }

  /** The subgradients that point along the direction, in their order. */
  function Along(direction: Vector, gs: seq<Vector>): (r: seq<Vector>)
    requires SameDimension(direction, gs)
    ensures SameDimension(direction, r)
    ensures forall k | 0 <= k < |r| :: PointsAlong(direction, r[k])
  {
    if |gs| == 0 then []
    else (if PointsAlong(direction, gs[0]) then [gs[0]] else []) + Along(direction, gs[1..])
  }

  lemma {:induction false} PartitionPermutes(direction: Vector, gs: seq<Vector>)
    requires SameDimension(direction, gs)
    ensures multiset(Against(direction, gs) + Along(direction, gs)) == multiset(gs)
  {
    if |gs| != 0 {
      PartitionPermutes(direction, gs[1..]);
      assert gs == [gs[0]] + gs[1..];
    }
  }

  /** `Collections.sort` with the comparator. The sort is stable and the
      comparator has two classes, so the result is the stable partition. */
  function SortedSubgradients(direction: Vector, gs: seq<Vector>): (r: seq<Vector>)
    requires SameDimension(direction, gs)
    ensures SameDimension(direction, r)
    ensures multiset(r) == multiset(gs) && |r| == |gs|
    ensures forall i, j | 0 <= i < j < |r| :: SubgradCompare(direction, r[i], r[j]) <= 0
  {
    PartitionPermutes(direction, gs);
    assert |multiset(Against(direction, gs) + Along(direction, gs))| == |multiset(gs)|;
    Against(direction, gs) + Along(direction, gs)
  }

  /** Subgradients that are all one vector come out of the sort unchanged. */
  lemma {:induction false} UniformSubgradientsUnchanged(direction: Vector, gs: seq<Vector>, g: Vector)
    requires |g| == |direction| && forall k | 0 <= k < |gs| :: gs[k] == g
    ensures SortedSubgradients(direction, gs) == gs
  {
    if PointsAlong(direction, g) {
      NoneAgainst(direction, gs, g);
      AllAlong(direction, gs, g);
    } else {
      AllAgainst(direction, gs, g);
      NoneAlong(direction, gs, g);
    }
  }

  lemma {:induction false} NoneAgainst(direction: Vector, gs: seq<Vector>, g: Vector)
    requires |g| == |direction| && PointsAlong(direction, g) && forall k | 0 <= k < |gs| :: gs[k] == g
    ensures Against(direction, gs) == []
  {
    if |gs| != 0 {
      NoneAgainst(direction, gs[1..], g);
    }
  }

  lemma {:induction false} AllAlong(direction: Vector, gs: seq<Vector>, g: Vector)
    requires |g| == |direction| && PointsAlong(direction, g) && forall k | 0 <= k < |gs| :: gs[k] == g
    ensures Along(direction, gs) == gs
  {
    if |gs| != 0 {
      AllAlong(direction, gs[1..], g);
      assert gs == [gs[0]] + gs[1..];
    }
  }

  lemma {:induction false} AllAgainst(direction: Vector, gs: seq<Vector>, g: Vector)
    requires |g| == |direction| && !PointsAlong(direction, g) && forall k | 0 <= k < |gs| :: gs[k] == g
    ensures Against(direction, gs) == gs
  {
    if |gs| != 0 {
      AllAgainst(direction, gs[1..], g);
      assert gs == [gs[0]] + gs[1..];
    }
  }

  lemma {:induction false} NoneAlong(direction: Vector, gs: seq<Vector>, g: Vector)
    requires |g| == |direction| && !PointsAlong(direction, g) && forall k | 0 <= k < |gs| :: gs[k] == g
    ensures Along(direction, gs) == []
  {
    if |gs| != 0 {
      NoneAlong(direction, gs[1..], g);
    }
  }

  /** The gradient an inner round trains on: the current one, or, when it
      points along the direction, the first of the sorted subgradients. All
      subgradients are the gradient at `addDelta(x, null)`, so that one is taken. */
  function PickGradient(x: Vector, f: UndeterminateCostFunc, direction: Vector, g: Vector): (r: Result<Vector>)
    requires f.accuracy != 0.0 && |direction| == |x| && |g| == |x|
    ensures !PointsAlong(direction, g) ==> r == Ok(g)
    ensures PointsAlong(direction, g) ==> (r.Ok? <==> f.SubGradientsResult(x, MAX_SUBGRAD_NUM).Ok?)
    ensures PointsAlong(direction, g) && r.Ok? ==>
      && f.GradientResult(f.AddDeltaPoint(x, None)).Ok?
      && r.value == f.GradientResult(f.AddDeltaPoint(x, None)).value
    ensures r.Err? ==> r.error == IllegalArgument
    ensures r.Ok? ==> |r.value| == |x|
  {
    if 0.0 < Dot(direction, g) then
      match f.SubGradientsResult(x, MAX_SUBGRAD_NUM)
      case Err(e) => Err(e)
      case Ok(subgradients) =>
        var shifted := f.GradientResult(f.AddDeltaPoint(x, None));
        assert subgradients[0] == shifted.value;
        UniformSubgradientsUnchanged(direction, subgradients, shifted.value);
        var sorted := SortedSubgradients(direction, subgradients);
        if |sorted| != 0 then Ok(sorted[0]) else Ok(g)
    else Ok(g)
  }

  // ------------------------------------------------------ training vector

  /** `getPi`: when the gradient turns against the previous one, the gradient
      minus the Kaczmarz step of (curGrad, prevGradient, 0); else the gradient. */
  function TrainingVector(curGrad: Vector, prevGradient: Vector, sqrt: real -> real): (p: Vector)
    requires IsSqrt(sqrt) && |curGrad| == |prevGradient|
    ensures |p| == |curGrad|
  {
    if Dot(curGrad, prevGradient) < 0.0 then
      NonZeroDotNonZero(curGrad, prevGradient);
      Sub(curGrad, LinearStep(curGrad, prevGradient, 0.0, sqrt).value)
    else curGrad
  }

  /** The training vector always agrees with the gradient, so the Kaczmarz
      training step is defined. When it corrects, it reflects: it meets the
      previous gradient at twice the angle the gradient did, not at a right
      angle. */
  lemma TrainingVectorAgrees(g: Vector, prev: Vector, sqrt: real -> real)
    requires IsSqrt(sqrt) && |g| == |prev| && !IsZero(g)
    ensures 0.0 < Dot(TrainingVector(g, prev, sqrt), g)
    ensures 0.0 <= Dot(g, prev) ==> TrainingVector(g, prev, sqrt) == g
    ensures Dot(g, prev) < 0.0 ==> Dot(prev, TrainingVector(g, prev, sqrt)) == 2.0 * Dot(prev, g)
  {
    var p := TrainingVector(g, prev, sqrt);
    NormFacts(g, sqrt);
    DotSymmetric(g, prev);
    if Dot(g, prev) < 0.0 {
      var c := TrainingVectorReflects(g, prev, sqrt);
      ReflectedDotsMul(g, prev, c);
      ReflectionCoefficient(c, Dot(prev, g), Dot(prev, prev));
    }
    DotSymmetric(p, g);
  }

  lemma TrainingVectorReflects(g: Vector, prev: Vector, sqrt: real -> real) returns (c: real)
    requires IsSqrt(sqrt) && |g| == |prev| && Dot(g, prev) < 0.0
    ensures 0.0 < Dot(prev, prev)
    ensures c == (0.0 - Dot(prev, g)) / Dot(prev, prev)
    ensures TrainingVector(g, prev, sqrt) == Sub(g, Scale(c, prev))
  {
    NonZeroDotNonZero(g, prev);
    NormFacts(prev, sqrt);
    c := (0.0 - Dot(prev, g)) / Dot(prev, prev);
  }

  lemma ReflectedDotsMul(g: Vector, prev: Vector, c: real)
    requires |g| == |prev|
    ensures Dot(g, Sub(g, Scale(c, prev))) == Dot(g, g) - Mul(c, Dot(prev, g))
    ensures Dot(prev, Sub(g, Scale(c, prev))) == Dot(prev, g) - Mul(c, Dot(prev, prev))
  {
    var step := Scale(c, prev);
    DotSubRight(g, g, step);
    DotSymmetric(g, step);
    DotScaleLeftMul(c, prev, g);
    DotSubRight(prev, g, step);
    DotSymmetric(prev, step);
    DotScaleLeftMul(c, prev, prev);
  }

  lemma DotScaleLeftMul(c: real, a: Vector, b: Vector)
    requires |a| == |b|
    ensures Dot(Scale(c, a), b) == Mul(c, Dot(a, b))
  {
    DotScaleLeft(c, a, b);
  }

  lemma ReflectionCoefficient(c: real, t: real, d: real)
    requires t < 0.0 && 0.0 < d && c == (0.0 - t) / d
    ensures Mul(c, t) < 0.0
    ensures Mul(c, d) == -t
  {
    assert 0.0 < c;
    MulPositive(c, -t);
    assert Mul(c, -t) == -(c * t);
  }

  // ------------------------------------------------------------ inner loop

  /** What an inner round does: a zero gradient means the search is done;
      otherwise the direction is trained, and the step is -gamma times it. */
  datatype InnerOutcome =
    | Stationary
    | Moved(step: Vector, direction: Vector, gradient: Vector)

  /** `innerLoop(x, function, direction, prevGradient)` as a value. */
  function InnerStep(x: Vector, f: UndeterminateCostFunc, direction: Vector, prevGradient: Vector,
                     gamma: (Vector, Vector) -> real): (r: Result<InnerOutcome>)
    requires f.accuracy != 0.0 && IsSqrt(f.sqrt)
    ensures r.Err? ==> r.error == IllegalArgument
    ensures f.GradientResult(x).Err? ==> r.Err?
    ensures r.Ok? && r.value.Stationary? ==> |x| == 0
    ensures r.Ok? && r.value.Moved? ==>
      var m := r.value;
      && |direction| == |x|
      && m.gradient == PickGradient(x, f, direction, f.GradientResult(x).value).value
      && TrainedMove(m, x, gamma)
  {
    match f.GradientResult(x)
    case Err(e) => Err(e)
    case Ok(g) =>
      ZeroIsTwin(g);
      if g == Twin(|x|, 0.0) then
        StationaryOnlyWithoutCoordinates(x, f);
        Ok(Stationary)
      else if |direction| != |x| then Err(IllegalArgument)
      else
        match PickGradient(x, f, direction, g)
        case Err(e) => Err(e)
        case Ok(curGrad) =>
          if |prevGradient| != |x| then Err(IllegalArgument)
          else
            PickedGradientNonZero(x, f, direction, g);
            Ok(MovedRound(x, direction, prevGradient, gamma, curGrad, f.sqrt))
  }

  /** A move of the inner loop: a non-zero gradient, a direction whose dot
      product with it is one, and the step -gamma times that direction. */
  predicate TrainedMove(m: InnerOutcome, x: Vector, gamma: (Vector, Vector) -> real) {
    && m.Moved?
    && |m.step| == |x| && |m.direction| == |x| && |m.gradient| == |x|
    && 0.0 < Dot(m.gradient, m.gradient)
    && Dot(m.gradient, m.direction) == 1.0
    && m.step == Scale(-gamma(x, m.direction), m.direction)
  }

  /** The round past a non-zero gradient: the direction trained on it, and
      the step -gamma times that direction. */
  function MovedRound(x: Vector, direction: Vector, prevGradient: Vector, gamma: (Vector, Vector) -> real,
                      curGrad: Vector, sqrt: real -> real): (m: InnerOutcome)
    requires IsSqrt(sqrt) && |direction| == |x| && |curGrad| == |x| && |prevGradient| == |x| && !IsZero(curGrad)
    ensures m.Moved? && m.gradient == curGrad && TrainedMove(m, x, gamma)
  {
    var d := TrainedDirection(direction, curGrad, prevGradient, sqrt);
    NormFacts(curGrad, sqrt);
    Moved(Scale(-gamma(x, d), d), d, curGrad)
  }

  /** Only a point without coordinates has the zero gradient: every entry of
      a gradient is a floored difference quotient. */
  lemma StationaryOnlyWithoutCoordinates(x: Vector, f: UndeterminateCostFunc)
    requires f.accuracy != 0.0 && f.GradientResult(x).Ok? && IsZero(f.GradientResult(x).value)
    ensures |x| == 0
  {
    if 0 < |x| {
      f.GradientNeverZero(x);
    }
  }

  /** The gradient a round trains on is never zero once the gradient at x is not. */
  lemma PickedGradientNonZero(x: Vector, f: UndeterminateCostFunc, direction: Vector, g: Vector)
    requires f.accuracy != 0.0 && |direction| == |x|
    requires f.GradientResult(x) == Ok(g) && !IsZero(g)
    requires PickGradient(x, f, direction, g).Ok?
    ensures !IsZero(PickGradient(x, f, direction, g).value)
  {
    if PickGradient(x, f, direction, g).value != g {
      f.GradientNeverZero(f.AddDeltaPoint(x, None));
    }
  }

  /** The trained direction: the old one plus the Kaczmarz training step
      (direction, g, getPi(g), 1), so that g meets it with g.d = 1. */
  function TrainedDirection(direction: Vector, curGrad: Vector, prevGradient: Vector, sqrt: real -> real): (d: Vector)
    requires IsSqrt(sqrt) && |direction| == |curGrad| && |prevGradient| == |curGrad| && !IsZero(curGrad)
    ensures |d| == |curGrad|
    ensures Dot(curGrad, d) == 1.0
  {
    TrainingVectorAgrees(curGrad, prevGradient, sqrt);
    var p := TrainingVector(curGrad, prevGradient, sqrt);
    var s := TrainingStep(direction, curGrad, p, 1.0);
    assert Add(s, direction) == Add(direction, s);
    Add(s, direction)
  }

  /** The round that trains on `curGrad`, as `innerLoop` computes it. */
  lemma InnerStepMoves(x: Vector, f: UndeterminateCostFunc, direction: Vector, prevGradient: Vector,
                       gamma: (Vector, Vector) -> real, g: Vector, curGrad: Vector)
    requires f.accuracy != 0.0 && IsSqrt(f.sqrt)
    requires f.GradientResult(x) == Ok(g) && !IsZero(g)
    requires |direction| == |x| && |prevGradient| == |x|
    requires PickGradient(x, f, direction, g) == Ok(curGrad)
    ensures !IsZero(curGrad)
    ensures var d := TrainedDirection(direction, curGrad, prevGradient, f.sqrt);
      InnerStep(x, f, direction, prevGradient, gamma) == Ok(Moved(Scale(-gamma(x, d), d), d, curGrad))
  {
    ZeroIsTwin(g);
    PickedGradientNonZero(x, f, direction, g);
  }

  /** An inner round reports done exactly when the gradient at x is zero. */
  lemma InnerStepStationary(x: Vector, f: UndeterminateCostFunc, direction: Vector, prevGradient: Vector,
                            gamma: (Vector, Vector) -> real)
    requires f.accuracy != 0.0 && IsSqrt(f.sqrt)
    ensures var r := InnerStep(x, f, direction, prevGradient, gamma);
      r.Ok? && r.value.Stationary? <==> f.GradientResult(x).Ok? && IsZero(f.GradientResult(x).value)
  {
    if f.GradientResult(x).Ok? {
      ZeroIsTwin(f.GradientResult(x).value);
    }
  }

  /** Past a non-zero gradient, an inner round fails exactly on a direction or
      a previous gradient of another dimension, or on subgradients that
      cannot be taken when they are needed. */
  lemma InnerStepFails(x: Vector, f: UndeterminateCostFunc, direction: Vector, prevGradient: Vector,
                       gamma: (Vector, Vector) -> real)
    requires f.accuracy != 0.0 && IsSqrt(f.sqrt)
    requires f.GradientResult(x).Ok? && !IsZero(f.GradientResult(x).value)
    ensures InnerStep(x, f, direction, prevGradient, gamma).Err? <==>
      || |direction| != |x|
      || (PointsAlong(direction, f.GradientResult(x).value) && f.SubGradientsResult(x, MAX_SUBGRAD_NUM).Err?)
      || |prevGradient| != |x|
  {
    ZeroIsTwin(f.GradientResult(x).value);
  }

  /** The first round after a restart, from the zero direction and the zero
      previous gradient, trains the direction onto g/|g|^2: steepest descent. */
  lemma FreshRoundFollowsGradient(x: Vector, f: UndeterminateCostFunc, gamma: (Vector, Vector) -> real)
    requires f.accuracy != 0.0 && IsSqrt(f.sqrt)
    requires f.GradientResult(x).Ok? && !IsZero(f.GradientResult(x).value)
    ensures var g := f.GradientResult(x).value;
      && 0.0 < Dot(g, g)
      && InnerStep(x, f, Twin(|x|, 0.0), Twin(|x|, 0.0), gamma).Ok?
      && InnerStep(x, f, Twin(|x|, 0.0), Twin(|x|, 0.0), gamma).value.direction == Scale(1.0 / Dot(g, g), g)
  {
    var g := f.GradientResult(x).value;
    var zero := Twin(|x|, 0.0);
    NormFacts(g, f.sqrt);
    DotWithZero(g, zero);
    DotSymmetric(g, zero);
    assert !PointsAlong(zero, g);
    assert TrainingVector(g, zero, f.sqrt) == g;
    var m := InnerStep(x, f, zero, zero, gamma).value;
    assert m.gradient == g;
    var c := (1.0 - Dot(g, zero)) / Dot(g, g);
    assert TrainingStep(zero, g, g, 1.0) == Scale(c, g);
    assert Add(Scale(c, g), zero) == Scale(1.0 / Dot(g, g), g);
  }

  // ------------------------------------------------------------ M1 guidance

  /** The counters of the M1 rule after one consultation. */
  datatype Guidance = Guidance(curSum: real, i: int, qk: int, ek: seq<real>, mk: seq<real>, anew: bool)

  /** `guideAlgorithm`: one more consultation; the sum of 1/|g|^2 over the
      previous gradients grows, and the outer round ends, taking the heads of
      both queues, once 1/sqrt(sum) is below e_k or the round has lasted more
      than m_k consultations. */
  function Guide(curSum: real, i: int, qk: int, ek: seq<real>, mk: seq<real>, prevGradient: Vector,
                 sqrt: real -> real): (r: Guidance)
    requires IsSqrt(sqrt) && 0.0 <= curSum && |ek| != 0 && |mk| != 0 && 0.0 < Dot(prevGradient, prevGradient)
    ensures r.i == i + 1
    ensures curSum < r.curSum
    ensures r.anew <==>
      || (0.0 < ek[0] && 1.0 < Mul(Mul(r.curSum, ek[0]), ek[0]))
      || (r.i - qk) as real > mk[0]
    ensures r.anew ==> r.qk == r.i && r.ek == ek[1..] && r.mk == mk[1..]
    ensures !r.anew ==> r.qk == qk && r.ek == ek && r.mk == mk
    ensures |r.ek| - |r.mk| == |ek| - |mk|
  {
    var i' := i + 1;
    var curSum' := curSum + 1.0 / Dot(prevGradient, prevGradient);
    RootRuleWithoutRoot(curSum', ek[0], sqrt);
    if 1.0 / sqrt(curSum') < ek[0] || (i' - qk) as real > mk[0] then
      Guidance(curSum', i', i', ek[1..], mk[1..], true)
    else
      Guidance(curSum', i', qk, ek, mk, false)
  }

  /** 1/sqrt(s) < e, the rule as written, without the root: e > 0 and s e^2 > 1. */
  lemma RootRuleWithoutRoot(s: real, e: real, sqrt: real -> real)
    requires IsSqrt(sqrt) && 0.0 < s
    ensures sqrt(s) != 0.0
    ensures 1.0 / sqrt(s) < e <==> 0.0 < e && 1.0 < Mul(Mul(s, e), e)
  {
    var r := sqrt(s);
    assert 0.0 <= r && r * r == s;
    assert 0.0 < r;
    ReciprocalBelow(e, r);
    var m := Mul(e, r);
    assert Mul(Mul(s, e), e) == Mul(m, m);
    if 1.0 < m {
      SquareIncreasing(1.0, m);
    }
    if 0.0 < e && 1.0 < Mul(m, m) && m <= 1.0 {
      MulPositive(e, r);
      SquareAtMost(m);
    }
  }

  lemma ReciprocalBelow(e: real, r: real)
    requires 0.0 < r
    ensures 1.0 / r < e <==> 1.0 < Mul(e, r)
  {
    var q := 1.0 / r;
    assert Mul(q, r) == 1.0;
    if q < e {
      assert Mul(q, r) < Mul(e, r);
    } else {
      assert Mul(e, r) <= Mul(q, r);
    }
  }

  lemma SquareAtMost(m: real)
    requires 0.0 <= m <= 1.0
    ensures Mul(m, m) <= 1.0
  {
    assert m * m <= m * 1.0;
  }

  // ------------------------------------------------------------ M1Stopping

  /** `M1Stopping`: the queues e_k and m_k, the running sum of 1/|g|^2, the
      consultation counter i, the consultation qk at which the current outer
      round began, and an optional base criteria checked on top. */
  class M1Stopping {
    var baseStopping: Option<CommonStopping>
    var curSum: real
    var ek: Queue
    var mk: Queue
    var i: int
    var qk: int

    /** Both constructors; the two-queue one leaves the base criteria null. */
    constructor(ek: Queue, mk: Queue, baseStopping: Option<CommonStopping>)
      ensures this.ek == ek && this.mk == mk && this.baseStopping == baseStopping
      ensures curSum == 0.0 && i == 0 && qk == 0
    {
      this.ek := ek;
      this.mk := mk;
      this.baseStopping := baseStopping;
      curSum := 0.0;
      i := 0;
      qk := 0;
    }
  }

  /** `createDefaultM1Stopping`: the default queues (k = 10) over all the
      common checks with error 0.1. */
  method CreateDefaultM1Stopping() returns (m: M1Stopping)
    ensures fresh(m) && fresh(m.ek) && fresh(m.mk) && m.ek != m.mk
    ensures m.ek.items == DefaultEk() && m.mk.items == DefaultMk()
    ensures m.baseStopping == Some(CommonStoppingWithError(true, true, true, true, 0.1))
    ensures m.curSum == 0.0 && m.i == 0 && m.qk == 0
  {
    var ek := new Queue();
    var mk := new Queue();
    CreateDefaultEkMk(ek, mk);
    m := new M1Stopping(ek, mk, Some(CommonStoppingWithError(true, true, true, true, 0.1)));
  }

  /** The queue loop of `configureStopCriteria`: entry j, from 2 on, goes to
      e_k when j < bound and to m_k otherwise. */
  method FillQueues(errors: seq<real>, bound: int) returns (ek: Queue, mk: Queue)
    requires 2 <= |errors|
    ensures fresh(ek) && fresh(mk) && ek != mk
    ensures var split := if bound < 2 then 2 else if |errors| < bound then |errors| else bound;
      ek.items == errors[2..split] && mk.items == errors[split..]
  {
    ek := new Queue();
    mk := new Queue();
    for j := 2 to |errors|
      invariant var split := if bound < 2 then 2 else if j < bound then j else bound;
        ek.items == errors[2..split] && mk.items == errors[split..j]
    {
      if j < bound {
        ek.Add(errors[j]);
      } else {
        mk.Add(errors[j]);
      }
    }
  }

  // ---------------------------------------------- GradientKaczmarzTraining

  class GradientKaczmarzTraining {
    var kaczmarz: Kaczmarz
    var oneDimSearchAlgo: CubicApproximation
    var curDirection: Vector
    var prevGradient: Vector
    var anew: bool
    var done: bool
    var stopCriteria: M1Stopping
    /** `getOptimizedGamma`, as a function of x and the new direction. */
    const gamma: (Vector, Vector) -> real

    ghost predicate Valid()
      reads this, stopCriteria
    {
      stopCriteria.ek != stopCriteria.mk && 0.0 <= stopCriteria.curSum
    }

    /** What a successful step leaves behind: done, or a previous gradient
        the M1 rule can divide by. */
    predicate Ready()
      reads this
    {
      done || 0.0 < Dot(prevGradient, prevGradient)
    }

    /** The new state after an inner round with outcome `o`, started from the
        direction d0, the previous gradient g0 and the flag done0. */
    predicate After(o: Result<InnerOutcome>, x: Vector, r: Result<Vector>, done0: bool, d0: Vector, g0: Vector)
      reads this
    {
      match o
      case Err(e) => r == Err(e) && done == done0 && curDirection == d0 && prevGradient == g0
      case Ok(Stationary) => r == Ok(x) && done && curDirection == d0 && prevGradient == g0
      case Ok(Moved(step, direction, gradient)) =>
        r == Ok(step) && done == done0 && curDirection == direction && prevGradient == gradient
    }

    /** The field initialisers, then `setDefaultParameters`. */
    constructor(gamma: (Vector, Vector) -> real)
      ensures Valid() && Ready() == false
      ensures fresh(kaczmarz) && fresh(oneDimSearchAlgo)
      ensures fresh(stopCriteria) && fresh(stopCriteria.ek) && fresh(stopCriteria.mk)
      ensures anew && !done && curDirection == [] && prevGradient == [] && this.gamma == gamma
      ensures kaczmarz.relaxationParameter == DEFAULT_RELAX_PARAM && oneDimSearchAlgo.h == DEFAULT_H
      ensures stopCriteria.ek.items == DefaultEk() && stopCriteria.mk.items == DefaultMk()
      ensures stopCriteria.baseStopping == Some(CommonStoppingWithError(true, true, true, true, 0.1))
      ensures stopCriteria.curSum == 0.0 && stopCriteria.i == 0 && stopCriteria.qk == 0
    {
      this.gamma := gamma;
      curDirection := [];
      prevGradient := [];
      anew := true;
      done := false;
      var k := new Kaczmarz();
      var c := new CubicApproximation();
      var m := CreateDefaultM1Stopping();
      kaczmarz := k;
      oneDimSearchAlgo := c;
      stopCriteria := m;
      new;
      kaczmarz.SetDefaultParameters();
      oneDimSearchAlgo.SetDefaultParameters();
    }

    /** `setDefaultParameters`: new inner algorithms with their defaults and
        the default M1 criteria. */
    method SetDefaultParameters()
      modifies this
      ensures Valid()
      ensures fresh(kaczmarz) && fresh(oneDimSearchAlgo)
      ensures fresh(stopCriteria) && fresh(stopCriteria.ek) && fresh(stopCriteria.mk)
      ensures kaczmarz.relaxationParameter == DEFAULT_RELAX_PARAM && oneDimSearchAlgo.h == DEFAULT_H
      ensures stopCriteria.ek.items == DefaultEk() && stopCriteria.mk.items == DefaultMk()
      ensures stopCriteria.baseStopping == Some(CommonStoppingWithError(true, true, true, true, 0.1))
      ensures stopCriteria.curSum == 0.0 && stopCriteria.i == 0 && stopCriteria.qk == 0
      ensures curDirection == old(curDirection) && prevGradient == old(prevGradient)
      ensures anew == old(anew) && done == old(done)
    {
      kaczmarz := new Kaczmarz();
      oneDimSearchAlgo := new CubicApproximation();
      kaczmarz.SetDefaultParameters();
      oneDimSearchAlgo.SetDefaultParameters();
      stopCriteria := CreateDefaultM1Stopping();
    }

    /** `isAble`: every cost function. */
    function IsAble(f: UndeterminateCostFunc): (r: bool)
      ensures r
    {
      true
    }

    /** `setParams`: exactly three values, the cubic step h, the Kaczmarz
        relaxation parameter and the error of the cubic search. */
    method SetParams(params: seq<real>) returns (ok: bool)
      requires kaczmarz as object != oneDimSearchAlgo
      modifies kaczmarz, oneDimSearchAlgo
      ensures ok <==> |params| == 3
      ensures ok ==> oneDimSearchAlgo.h == params[0] && kaczmarz.relaxationParameter == params[1]
      ensures ok ==> oneDimSearchAlgo.stopCriteria == Simple(params[2])
      ensures !ok ==> unchanged(kaczmarz, oneDimSearchAlgo)
    {
      if |params| != 3 {
        return false;
      }
      oneDimSearchAlgo.ConfigureStopCriteria([params[2]], [true]);
      ok := oneDimSearchAlgo.SetParams([params[0]]);
      if ok {
        ok := kaczmarz.SetParams([params[1]]);
      }
    }

    /** `configureStopCriteria`: new M1 criteria with the queues split out of
        `errors` and the base criteria the flags ask for; nothing changes when
        `errors` or the flags are rejected. */
    method ConfigureStopCriteria(errors: seq<real>, conditions: seq<bool>) returns (r: Result<()>)
      requires Valid()
      modifies this
      ensures Valid()
      ensures r.Err? <==> ErrorQueues(errors).Err? || ConfiguredBase(FirstError(errors), conditions).Err?
      ensures r.Err? ==> r.error == IllegalArgument && stopCriteria == old(stopCriteria)
      ensures r.Ok? ==>
        && fresh(stopCriteria) && fresh(stopCriteria.ek) && fresh(stopCriteria.mk)
        && (stopCriteria.ek.items, stopCriteria.mk.items) == ErrorQueues(errors).value
        && stopCriteria.baseStopping == ConfiguredBase(FirstError(errors), conditions).value
        && stopCriteria.curSum == 0.0 && stopCriteria.i == 0 && stopCriteria.qk == 0
      ensures kaczmarz == old(kaczmarz) && oneDimSearchAlgo == old(oneDimSearchAlgo)
      ensures curDirection == old(curDirection) && prevGradient == old(prevGradient)
      ensures anew == old(anew) && done == old(done)
    {
      if |errors| < 2 {
        return Err(IllegalArgument);
      }
      var k := RoundCount(errors[1]);
      if |errors| != ToInt32(2 * k + 2) {
        return Err(IllegalArgument);
      }
      var ek, mk := FillQueues(errors, ToInt32(k + 2));
      assert (ek.items, mk.items) == ErrorQueues(errors).value;
      if |conditions| == 1 {
        if conditions[0] {
          return Err(IllegalArgument);
        }
        stopCriteria := new M1Stopping(ek, mk, None);
      } else if |conditions| == 6 {
        var commonStopping := CommonFlags(conditions);
        var base := CommonStoppingWithError(commonStopping[0], commonStopping[1], commonStopping[2],
                                            commonStopping[4], FirstError(errors));
        stopCriteria := new M1Stopping(ek, mk, Some(base));
      } else {
        return Err(IllegalArgument);
      }
      r := Ok(());
    }

    /** The `commonStopping` array of `configureStopCriteria`: all false
        unless the first condition is set, otherwise the five that follow it. */
    static method CommonFlags(conditions: seq<bool>) returns (flags: seq<bool>)
      requires |conditions| == 6
      ensures |flags| == 5
      ensures forall t | 0 <= t < 5 :: flags[t] == (conditions[0] && conditions[t + 1])
    {
      var commonStopping := new bool[5](_ => false);
      var i := 0;
      while i < |conditions|
        invariant 0 <= i <= 6
        invariant !conditions[0] ==> i == 0
        invariant forall t | 0 <= t < 5 :: commonStopping[t] == (conditions[0] && t < i - 1 && conditions[t + 1])
      {
        if i == 0 {
          if conditions[i] {
            i := i + 1;
            continue;
          } else {
            break;
          }
        }
        commonStopping[i - 1] := conditions[i];
        i := i + 1;
      }
      flags := commonStopping[..];
    }

    /** `innerLoop`: one training round from the current direction and the
        previous gradient. */
    method InnerLoop(x: Vector, f: UndeterminateCostFunc) returns (r: Result<Vector>)
      requires f.Valid() && IsSqrt(f.sqrt)
      modifies this, f
      ensures f.Valid()
      ensures forall k | k in old(f.covered) :: k in f.covered && f.covered[k] == old(f.covered)[k]
      ensures kaczmarz == old(kaczmarz) && oneDimSearchAlgo == old(oneDimSearchAlgo)
      ensures stopCriteria == old(stopCriteria) && anew == old(anew)
      ensures After(InnerStep(x, f, old(curDirection), old(prevGradient), gamma), x, r,
                    old(done), old(curDirection), old(prevGradient))
      ensures r.Ok? ==> Ready()
    {
      ghost var o := InnerStep(x, f, curDirection, prevGradient, gamma);
      var g := f.Gradient(x);
      if g.Err? {
        assert o == Err(g.error);
        return Err(g.error);
      }
      var zero := GetTwinVector(|x|, 0.0);
      ZeroIsTwin(g.value);
      if g.value == zero {
        assert o == Ok(Stationary);
        done := true;
        return Ok(x);
      }
      r := Train(x, f, g.value);
    }

    /** The rest of `innerLoop`, past a non-zero gradient g at x: the
        direction is trained and the step along it returned. */
    method Train(x: Vector, f: UndeterminateCostFunc, g: Vector) returns (r: Result<Vector>)
      requires f.Valid() && IsSqrt(f.sqrt)
      requires f.GradientResult(x) == Ok(g) && !IsZero(g)
      modifies this, f
      ensures f.Valid()
      ensures forall k | k in old(f.covered) :: k in f.covered && f.covered[k] == old(f.covered)[k]
      ensures kaczmarz == old(kaczmarz) && oneDimSearchAlgo == old(oneDimSearchAlgo)
      ensures stopCriteria == old(stopCriteria) && anew == old(anew) && done == old(done)
      ensures After(InnerStep(x, f, old(curDirection), old(prevGradient), gamma), x, r,
                    old(done), old(curDirection), old(prevGradient))
      ensures r.Ok? ==> Ready()
    {
      if |curDirection| != |x| {
        InnerStepFails(x, f, curDirection, prevGradient, gamma);
        return Err(IllegalArgument);
      }
      var picked := PickTrainingGradient(x, f, g);
      // x has a gradient, so the shifted point is defined and the subgradients exist
      var curGrad := picked.value;
      if |prevGradient| != |x| {
        InnerStepFails(x, f, curDirection, prevGradient, gamma);
        return Err(IllegalArgument);
      }
      InnerStepMoves(x, f, curDirection, prevGradient, gamma, g, curGrad);
      var step := Advance(x, TrainedDirection(curDirection, curGrad, prevGradient, f.sqrt), curGrad);
      r := Ok(step);
    }

    /** The end of `innerLoop`: the trained direction and the gradient are
        kept, and the step along the direction is returned. */
    method Advance(x: Vector, direction: Vector, curGrad: Vector) returns (step: Vector)
      modifies this
      ensures curDirection == direction && prevGradient == curGrad
      ensures step == Scale(-gamma(x, direction), direction)
      ensures kaczmarz == old(kaczmarz) && oneDimSearchAlgo == old(oneDimSearchAlgo)
      ensures stopCriteria == old(stopCriteria) && anew == old(anew) && done == old(done)
    {
      curDirection := direction;
      prevGradient := curGrad;
      step := Scale(-gamma(x, curDirection), direction);
    }

    /** The subgradient part of `innerLoop`: when the gradient points along the
        direction, the subgradients are taken, sorted, and the first one used. */
    method PickTrainingGradient(x: Vector, f: UndeterminateCostFunc, g: Vector) returns (r: Result<Vector>)
      requires f.Valid() && |curDirection| == |x| && |g| == |x|
      modifies f
      ensures f.Valid()
      ensures forall k | k in old(f.covered) :: k in f.covered && f.covered[k] == old(f.covered)[k]
      ensures r == PickGradient(x, f, curDirection, g)
    {
      r := Ok(g);
      if 0.0 < Dot(curDirection, g) {
        var subgradients := f.SubGradients(x, MAX_SUBGRAD_NUM);
        if subgradients.Err? {
          return Err(subgradients.error);
        }
        var sorted := SortedSubgradients(curDirection, subgradients.value);
        if |sorted| != 0 {
          r := Ok(sorted[0]);
        }
      }
    }

    /** `outerLoop`: a new outer round from the zero direction and the zero
        previous gradient. */
    method OuterLoop(x: Vector, f: UndeterminateCostFunc) returns (r: Result<Vector>)
      requires f.Valid() && IsSqrt(f.sqrt)
      modifies this, f
      ensures f.Valid()
      ensures forall k | k in old(f.covered) :: k in f.covered && f.covered[k] == old(f.covered)[k]
      ensures kaczmarz == old(kaczmarz) && oneDimSearchAlgo == old(oneDimSearchAlgo)
      ensures stopCriteria == old(stopCriteria) && anew == old(anew)
      ensures After(InnerStep(x, f, Twin(|x|, 0.0), Twin(|x|, 0.0), gamma), x, r,
                    old(done), Twin(|x|, 0.0), Twin(|x|, 0.0))
      ensures r.Ok? ==> Ready()
    {
      var nulVec := GetTwinVector(|x|, 0.0);
      curDirection := nulVec;
      prevGradient := nulVec;
      r := InnerLoop(x, f);
    }

    /** `getAlgorithmStep`: a new outer round when `anew` is set, otherwise
        the next inner round. */
    method AlgorithmStep(x: Vector, f: UndeterminateCostFunc) returns (r: Result<Vector>)
      requires f.Valid() && IsSqrt(f.sqrt)
      modifies this, f
      ensures f.Valid()
      ensures forall k | k in old(f.covered) :: k in f.covered && f.covered[k] == old(f.covered)[k]
      ensures kaczmarz == old(kaczmarz) && oneDimSearchAlgo == old(oneDimSearchAlgo)
      ensures stopCriteria == old(stopCriteria) && anew == old(anew)
      ensures var d0 := if old(anew) then Twin(|x|, 0.0) else old(curDirection);
        var g0 := if old(anew) then Twin(|x|, 0.0) else old(prevGradient);
        After(InnerStep(x, f, d0, g0, gamma), x, r, old(done), d0, g0)
      ensures r.Ok? ==> Ready()
    {
      if anew {
        r := OuterLoop(x, f);
      } else {
        r := InnerLoop(x, f);
      }
    }

    /** `M1Stopping.guideAlgorithm`. */
    method GuideAlgorithm(sqrt: real -> real)
      requires Valid() && IsSqrt(sqrt)
      requires !stopCriteria.ek.IsEmpty() && !stopCriteria.mk.IsEmpty()
      requires 0.0 < Dot(prevGradient, prevGradient)
      modifies this, stopCriteria, stopCriteria.ek, stopCriteria.mk
      ensures Valid()
      ensures stopCriteria == old(stopCriteria) && stopCriteria.ek == old(stopCriteria.ek)
      ensures stopCriteria.mk == old(stopCriteria.mk) && stopCriteria.baseStopping == old(stopCriteria.baseStopping)
      ensures kaczmarz == old(kaczmarz) && oneDimSearchAlgo == old(oneDimSearchAlgo)
      ensures curDirection == old(curDirection) && prevGradient == old(prevGradient) && done == old(done)
      ensures Guide(old(stopCriteria.curSum), old(stopCriteria.i), old(stopCriteria.qk),
                    old(stopCriteria.ek.items), old(stopCriteria.mk.items), prevGradient, sqrt)
           == Guidance(stopCriteria.curSum, stopCriteria.i, stopCriteria.qk,
                       stopCriteria.ek.items, stopCriteria.mk.items, anew)
    {
      var m := stopCriteria;
      m.i := m.i + 1;
      var epsK := m.ek.Peek().value;
      var mK := m.mk.Peek().value;
      m.curSum := m.curSum + 1.0 / Dot(prevGradient, prevGradient);
      RootRuleWithoutRoot(m.curSum, epsK, sqrt);
      if 1.0 / sqrt(m.curSum) < epsK || (m.i - m.qk) as real > mK {
        anew := true;
        m.qk := m.i;
        var e := m.ek.Remove();
        var d := m.mk.Remove();
      } else {
        anew := false;
      }
    }

    /** `M1Stopping.specifiedCriteria`: true at once when done or when either
        queue has run out; otherwise a guidance, then done or the base criteria. */
    method SpecifiedCriteria(points: seq<Vector>, f: UndeterminateCostFunc) returns (r: bool)
      requires Valid() && IsSqrt(f.sqrt) && Ready()
      requires 2 <= |points| ==> Checkable(points, f)
      modifies this, stopCriteria, stopCriteria.ek, stopCriteria.mk
      ensures Valid() && Ready()
      ensures stopCriteria == old(stopCriteria) && stopCriteria.ek == old(stopCriteria.ek)
      ensures stopCriteria.mk == old(stopCriteria.mk) && stopCriteria.baseStopping == old(stopCriteria.baseStopping)
      ensures kaczmarz == old(kaczmarz) && oneDimSearchAlgo == old(oneDimSearchAlgo)
      ensures curDirection == old(curDirection) && prevGradient == old(prevGradient) && done == old(done)
      ensures old(done || stopCriteria.ek.IsEmpty() || stopCriteria.mk.IsEmpty()) ==>
        r && unchanged(this, stopCriteria, stopCriteria.ek, stopCriteria.mk)
      ensures !old(done || stopCriteria.ek.IsEmpty() || stopCriteria.mk.IsEmpty()) ==>
        && Guide(old(stopCriteria.curSum), old(stopCriteria.i), old(stopCriteria.qk),
                 old(stopCriteria.ek.items), old(stopCriteria.mk.items), prevGradient, f.sqrt)
           == Guidance(stopCriteria.curSum, stopCriteria.i, stopCriteria.qk,
                       stopCriteria.ek.items, stopCriteria.mk.items, anew)
        && (r <==> stopCriteria.baseStopping.Some?
                   && CommonAchieved(stopCriteria.baseStopping.value, points, f, f.sqrt))
    {
      if done || stopCriteria.ek.IsEmpty() || stopCriteria.mk.IsEmpty() {
        return true;
      }
      GuideAlgorithm(f.sqrt);
      var baseCriteria := stopCriteria.baseStopping.Some?
        && CommonAchieved(stopCriteria.baseStopping.value, points, f, f.sqrt);
      r := done || baseCriteria;
    }
  }
}
