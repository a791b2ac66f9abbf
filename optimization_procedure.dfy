/** `OptimizationProcedure`: the driver. It holds a configuration and a cost
    function, checks the start point, and then grows the trajectory
    `procedurePoints` one `conductOneIteration` at a time until the selected
    algorithm's stop criteria fire. The algorithm is one of the four
    implementations of `Algorithm`; the dispatch over them is explicit. */
module OptimizationProcedures {
  import opened Wrappers
  import opened MathHelp
  import opened Configurations
  import StopCriteria
  import opened CostFunctions
  import opened PureAlgorithms
  import opened GradientDescentAlgorithm
  import opened KaczmarzAlgorithm
  import opened CubicApproximationAlgorithm
  import opened GradientKaczmarzTrainingAlgorithm

  /** The implementations of `Algorithm` a configuration can select. */
  datatype Algorithm =
    | ByDescent(descent: GradientDescent)
    | ByKaczmarz(kaczmarz: Kaczmarz)
    | ByCubic(cubic: CubicApproximation)
    | ByTraining(training: GradientKaczmarzTraining)

  /** The objects an algorithm owns and may change. */
  function Parts(a: Algorithm): set<object>
    reads if a.ByTraining? then {a.training as object, a.training.stopCriteria} else {}
  {
    match a
    case ByDescent(d) => {d}
    case ByKaczmarz(k) => {k}
    case ByCubic(c) => {c}
    case ByTraining(t) =>
      {t, t.stopCriteria, t.stopCriteria.ek, t.stopCriteria.mk, t.kaczmarz, t.oneDimSearchAlgo}
  }

  /** What the algorithm's own methods keep. */
  ghost predicate AlgorithmValid(a: Algorithm)
    reads if a.ByTraining? then {a.training as object, a.training.stopCriteria} else {}
  {
    a.ByTraining? ==> a.training.Valid()
  }

  /** The objects of the algorithm are the same ones as in the earlier state. */
  twostate predicate SameParts(a: Algorithm)
    reads if a.ByTraining? then {a.training as object, a.training.stopCriteria} else {}
  {
    a.ByTraining? ==>
      && a.training.stopCriteria == old(a.training.stopCriteria)
      && a.training.stopCriteria.ek == old(a.training.stopCriteria.ek)
      && a.training.stopCriteria.mk == old(a.training.stopCriteria.mk)
      && a.training.kaczmarz == old(a.training.kaczmarz)
      && a.training.oneDimSearchAlgo == old(a.training.oneDimSearchAlgo)
  }

  /** `isAble` of the selected algorithm. */
  function IsAble(a: Algorithm, f: UndeterminateCostFunc): (r: bool)
    ensures a.ByKaczmarz? ==> !r
    ensures a.ByDescent? || a.ByTraining? ==> r
    ensures a.ByCubic? ==> (r <==> f.dimension == 1)
  {
    match a
    case ByDescent(d) => d.IsAble(f)
    case ByKaczmarz(k) => k.IsAble(f)
    case ByCubic(c) => c.IsAble(f)
    case ByTraining(t) => t.IsAble(f)
  }

  /** The stop decision of an algorithm whose criteria are a value: the
      common criteria of the pure algorithms, or the cubic search's own. */
  predicate StatelessAchieved(a: Algorithm, points: seq<Vector>, f: UndeterminateCostFunc)
    requires !a.ByTraining? && (2 <= |points| ==> Checkable(points, f))
    reads Parts(a)
    ensures |points| < 2 ==> !StatelessAchieved(a, points, f)
    ensures StopCriteria.MAX_ITERATIONS_NUM <= |points| ==> StatelessAchieved(a, points, f)
    ensures a.ByCubic? && a.cubic.stopCriteria.Simple? ==>
      (StatelessAchieved(a, points, f) <==> 2 <= |points| && (a.cubic.done || StopCriteria.MAX_ITERATIONS_NUM <= |points|))
  {
    match a
    case ByDescent(d) => CommonAchieved(d.stopCriteria, points, f, f.sqrt)
    case ByKaczmarz(k) => CommonAchieved(k.stopCriteria, points, f, f.sqrt)
    case ByCubic(c) =>
      match c.stopCriteria
      case Common(s) => CommonAchieved(s, points, f, f.sqrt)
      case Simple(_) => StopCriteria.IsAchieved(|points|, c.SimpleSpecified())
  }

  /** `Config.configureStopCriteria`: handed on to the algorithm; the pure
      algorithms take the first error. A null algorithm is a `Runtime` error. */
  method ConfigureStopCriteria(c: Config<Algorithm>, errors: seq<real>, conditions: seq<bool>) returns (r: Result<()>)
    requires c.algorithm.Some? ==> AlgorithmValid(c.algorithm.value)
    modifies if c.algorithm.Some? then Parts(c.algorithm.value) else {}
    ensures c.algorithm.None? ==> r == Err(Runtime)
    ensures c.algorithm.Some? ==> AlgorithmValid(c.algorithm.value)
    ensures c.algorithm.Some? && c.algorithm.value.ByDescent? ==>
      (r.Ok? <==> ConfiguredCommonStopping(FirstError(errors), conditions).Ok?)
    ensures c.algorithm.Some? && c.algorithm.value.ByKaczmarz? ==>
      (r.Ok? <==> ConfiguredCommonStopping(FirstError(errors), conditions).Ok?)
    ensures c.algorithm.Some? && c.algorithm.value.ByCubic? ==> r.Ok?
    ensures c.algorithm.Some? && c.algorithm.value.ByTraining? ==>
      (r.Ok? <==> ErrorQueues(errors).Ok? && ConfiguredBase(FirstError(errors), conditions).Ok?)
  {
    if c.algorithm.None? {
      return Err(Runtime);
    }
    match c.algorithm.value
    case ByDescent(d) =>
      r := d.ConfigureStopCriteria(FirstError(errors), conditions);
    case ByKaczmarz(k) =>
      r := k.ConfigureStopCriteria(FirstError(errors), conditions);
    case ByCubic(cubic) =>
      cubic.ConfigureStopCriteria(errors, conditions);
      r := Ok(());
    case ByTraining(t) =>
      r := t.ConfigureStopCriteria(errors, conditions);
  }

  /** `Config.setAlgorithmParams`: handed on to the algorithm. Gradient
      descent declares no `setParams`; here it takes no parameters. */
  method SetAlgorithmParams(c: Config<Algorithm>, params: seq<real>) returns (r: Result<bool>)
    modifies if c.algorithm.Some? then Parts(c.algorithm.value) else {}
    ensures c.algorithm.None? ==> r == Err(Runtime)
    ensures c.algorithm.Some? ==> r.Ok?
    ensures c.algorithm.Some? && c.algorithm.value.ByDescent? ==> !r.value
    ensures c.algorithm.Some? && (c.algorithm.value.ByKaczmarz? || c.algorithm.value.ByCubic?) ==>
      r.value == (|params| == 1)
    ensures c.algorithm.Some? && c.algorithm.value.ByTraining? ==> r.value == (|params| == 3)
  {
    if c.algorithm.None? {
      return Err(Runtime);
    }
    var ok: bool;
    match c.algorithm.value {
      case ByDescent(d) =>
        ok := false;
      case ByKaczmarz(k) =>
        ok := k.SetParams(params);
      case ByCubic(cubic) =>
        ok := cubic.SetParams(params);
      case ByTraining(t) =>
        ok := t.SetParams(params);
    }
    r := Ok(ok);
  }

  /** y is one gradient-descent iteration from x. */
  predicate Descends(x: Vector, y: Vector, f: UndeterminateCostFunc) {
    IterationResult(x, DescentStep(x, f), f) == Ok(y)
  }

  predicate SameLength(x: Vector, y: Vector) {
    |x| == |y|
  }

  /** From point `from` on, every point is related by `next` to the one before. */
  predicate Follows(points: seq<Vector>, from: int, next: (Vector, Vector) -> bool) {
    forall j, k | 0 <= j && j + 1 == k && from <= k < |points| :: next(points[j], points[k])
  }

  function DescentRelation(f: UndeterminateCostFunc): (Vector, Vector) -> bool {
    (x, y) => Descends(x, y, f)
  }

  /** From point `from` on, every point is a gradient-descent iteration of the one before. */
  predicate DescentFrom(points: seq<Vector>, from: int, f: UndeterminateCostFunc) {
    Follows(points, from, DescentRelation(f))
  }

  /** From point `from` on, every point has the dimension of the one before. */
  predicate DimensionFrom(points: seq<Vector>, from: int) {
    forall j, k | 0 <= j && j + 1 == k && from <= k < |points| :: SameLength(points[j], points[k])
  }

  /** Appending a point of the same dimension keeps the dimensions in step. */
  lemma {:induction false} ExtendedDimension(before: seq<Vector>, points: seq<Vector>, from: int)
    requires before <= points && |points| == |before| + 1 && 1 <= |before|
    requires DimensionFrom(before, from) && SameLength(points[|before| - 1], points[|before|])
    ensures DimensionFrom(points, from)
  {
    forall k | 0 <= k < |before|
      ensures points[k] == before[k]
    {
    }
  }

  /** Appending a point related to the last one keeps the relation. */
  lemma {:induction false} ExtendedFollows(before: seq<Vector>, points: seq<Vector>, from: int,
                                           next: (Vector, Vector) -> bool)
    requires before <= points && |points| == |before| + 1 && 1 <= |before|
    requires Follows(before, from, next) && next(points[|before| - 1], points[|before|])
    ensures Follows(points, from, next)
  {
    forall k | 0 <= k < |before|
      ensures points[k] == before[k]
    {
    }
  }

  /** The common criteria s were not met on any trajectory prefix longer than
      `from` and shorter than the whole. */
  predicate NotAchievedBefore(s: CommonStopping, points: seq<Vector>, from: int, f: UndeterminateCostFunc) {
    forall n | 0 <= from < n < |points| :: Checkable(points[..n], f) && !CommonAchieved(s, points[..n], f, f.sqrt)
  }

  /** A round whose check did not fire extends the prefixes that did not stop. */
  lemma {:induction false} NotAchievedExtended(s: CommonStopping, before: seq<Vector>, points: seq<Vector>,
                                               from: int, f: UndeterminateCostFunc)
    requires before <= points && |points| == |before| + 1 && 0 <= from < |before|
    requires NotAchievedBefore(s, before, from, f)
    requires Checkable(before, f) && !CommonAchieved(s, before, f, f.sqrt)
    ensures NotAchievedBefore(s, points, from, f)
  {
    forall n | from < n < |before|
      ensures points[..n] == before[..n]
    {
    }
    assert points[..|before|] == before;
  }


  /** What the loop of `optimize` keeps about the points from `from` on
      survives one more point. */
  lemma RoundExtends(before: seq<Vector>, points: seq<Vector>, from: int, f: UndeterminateCostFunc,
                     descent: bool, common: Option<CommonStopping>)
    requires before <= points && |points| == |before| + 1 && 1 <= from <= |before|
    requires SameLength(points[|before| - 1], points[|before|])
    requires DimensionFrom(before, from)
    requires descent ==> DescentFrom(before, from, f) && Descends(points[|before| - 1], points[|before|], f)
    requires from < |before| && common.Some? ==>
      Checkable(before, f) && !CommonAchieved(common.value, before, f, f.sqrt)
    requires common.Some? ==> NotAchievedBefore(common.value, before, from, f)
    ensures DimensionFrom(points, from)
    ensures descent ==> DescentFrom(points, from, f)
    ensures common.Some? ==> NotAchievedBefore(common.value, points, from, f)
  {
    ExtendedDimension(before, points, from);
    if descent {
      assert DescentRelation(f)(points[|before| - 1], points[|before|]);
      ExtendedFollows(before, points, from, DescentRelation(f));
    }
    if common.Some? && from < |before| {
      NotAchievedExtended(common.value, before, points, from, f);
    }
  }
  /** The common criteria of an algorithm that keeps them as a value. */
  function CommonOf(a: Algorithm): (r: Option<CommonStopping>)
    reads Parts(a)
  {
    match a
    case ByDescent(d) => Some(d.stopCriteria)
    case ByKaczmarz(k) => Some(k.stopCriteria)
    case ByCubic(c) => if c.stopCriteria.Common? then Some(c.stopCriteria.common) else None
    case ByTraining(_) => None
  }

  class OptimizationProcedure {
    const config: Config<Algorithm>
    const costFunction: UndeterminateCostFunc
    var procedurePoints: seq<Vector>

    /** The algorithm was checked by the constructor, so it is present and able. */
    function Alg(): Algorithm
      requires config.algorithm.Some?
    {
      config.algorithm.value
    }

    /** What every method keeps: the checks of the constructor, the cost
        function's and the algorithm's own invariants, and a trajectory of
        points in the domain. */
    ghost predicate Valid()
      reads this, costFunction
      reads if config.algorithm.Some? && Alg().ByTraining? then {Alg().training as object, Alg().training.stopCriteria} else {}
    {
      && config.algorithm.Some?
      && IsAble(Alg(), costFunction)
      && costFunction.Valid()
      && AlgorithmValid(Alg())
      && forall k | 0 <= k < |procedurePoints| :: costFunction.Defined(procedurePoints[k])
    }

    constructor(costFunction: UndeterminateCostFunc, config: Config<Algorithm>)
      ensures this.costFunction == costFunction && this.config == config
      ensures procedurePoints == []
    {
      this.costFunction := costFunction;
      this.config := config;
      procedurePoints := [];
    }

    /** The checking constructor: a null argument, or an algorithm that
        cannot optimise the function, is rejected. */
    static method Create(f: Option<UndeterminateCostFunc>, config: Option<Config<Algorithm>>)
      returns (r: Result<OptimizationProcedure>)
      requires f.Some? ==> f.value.Valid()
      requires config.Some? && config.value.algorithm.Some? ==> AlgorithmValid(config.value.algorithm.value)
      ensures f.None? || config.None? ==> r == Err(IllegalArgument)
      ensures f.Some? && config.Some? && config.value.algorithm.None? ==> r == Err(Runtime)
      ensures r.Ok? <==>
        && f.Some? && config.Some? && config.value.algorithm.Some?
        && IsAble(config.value.algorithm.value, f.value)
      ensures r.Err? && f.Some? && config.Some? && config.value.algorithm.Some? ==> r.error == IllegalArgument
      ensures r.Ok? ==>
        && fresh(r.value) && r.value.Valid() && r.value.procedurePoints == []
        && r.value.costFunction == f.value && r.value.config == config.value
    {
      if f.None? || config.None? {
        return Err(IllegalArgument);
      }
      if config.value.algorithm.None? {
        return Err(Runtime);
      }
      if !IsAble(config.value.algorithm.value, f.value) {
        return Err(IllegalArgument);
      }
      var p := new OptimizationProcedure(f.value, config.value);
      r := Ok(p);
    }

    /** `getProcedurePoints`. */
    function ProcedurePoints(): (points: seq<Vector>)
      reads this
      ensures points == procedurePoints
    {
      procedurePoints
    }

    /** `getOptimizedDecision`: the last point and the cost there; a
        `Runtime` error before the first start. */
    function OptimizedDecision(): (r: Result<(Vector, Option<real>)>)
      reads this
      ensures r.Err? <==> |procedurePoints| == 0
      ensures r.Err? ==> r.error == Runtime
      ensures r.Ok? ==>
        && r.value.0 == procedurePoints[|procedurePoints| - 1]
        && r.value.1 == costFunction.rule(r.value.0)
    {
      if |procedurePoints| == 0 then Err(Runtime)
      else Ok((Last(procedurePoints), costFunction.rule(Last(procedurePoints))))
    }

    /** In a valid procedure the decision is a point of the domain. */
    lemma DecisionInDomain()
      requires Valid() && |procedurePoints| != 0
      ensures OptimizedDecision().Ok? && OptimizedDecision().value.1.Some?
    {
      assert costFunction.Defined(procedurePoints[|procedurePoints| - 1]);
    }

    /** `getAlgorithmStep` of the selected algorithm, then `conductOneIteration`:
        the next point, in the domain. */
    method ConductOneIteration(x: Vector, polinomMin: (real, real) -> real, fuel: nat) returns (r: Result<Vector>)
      requires Valid() && IsSqrt(costFunction.sqrt) && costFunction.Defined(x)
      modifies costFunction, Parts(Alg())
      ensures Valid() && SameParts(Alg())
      ensures r.Ok? ==> |r.value| == |x| && costFunction.Defined(r.value)
      ensures Alg().ByDescent? ==>
        r == IterationResult(x, DescentStep(x, costFunction), costFunction)
      ensures Alg().ByDescent? ==> unchanged(Alg().descent)
      ensures Alg().ByCubic? ==> Alg().cubic.stopCriteria == old(Alg().cubic.stopCriteria)
      ensures Alg().ByTraining? && r.Ok? ==> Alg().training.Ready()
    {
      var step := AlgorithmStep(x, polinomMin, fuel);
      if step.Err? {
        return Err(step.error);
      }
      r := PureAlgorithms.ConductOneIteration(x, step.value, costFunction);
    }

    /** `getAlgorithmStep` of the selected algorithm. */
    method AlgorithmStep(x: Vector, polinomMin: (real, real) -> real, fuel: nat) returns (step: Result<Vector>)
      requires Valid() && IsSqrt(costFunction.sqrt)
      modifies costFunction, Parts(Alg())
      ensures Valid() && SameParts(Alg())
      ensures Alg().ByDescent? ==> step == Ok(DescentStep(x, costFunction))
      ensures Alg().ByDescent? ==> unchanged(Alg().descent)
      ensures Alg().ByCubic? ==> Alg().cubic.stopCriteria == old(Alg().cubic.stopCriteria)
      ensures Alg().ByTraining? && step.Ok? ==> Alg().training.Ready()
    {
      match Alg() {
        case ByDescent(d) =>
          var s := d.AlgorithmStep(x, costFunction);
          step := Ok(s);
        case ByKaczmarz(k) =>
          assert false;
        case ByCubic(c) =>
          var a, b;
          step, a, b := c.AlgorithmStep(x, costFunction, polinomMin, fuel);
        case ByTraining(t) =>
          step := t.AlgorithmStep(x, costFunction);
      }
    }
  
    /** `isAchieved` of the algorithm's stop criteria on this trajectory:
        nothing before two points, then the rule of the criteria or the cap.
        The training algorithm's M1 criteria are advanced when consulted. */
    method IsAchieved() returns (r: bool)
      requires Valid() && IsSqrt(costFunction.sqrt)
      requires 2 <= |procedurePoints| ==> |Last(procedurePoints)| == |BeforeLast(procedurePoints)|
      requires Alg().ByTraining? && 2 <= |procedurePoints| ==> Alg().training.Ready()
      modifies Parts(Alg())
      ensures Valid() && SameParts(Alg())
      ensures !StopCriteria.Consults(|procedurePoints|) ==> !r && unchanged(Parts(Alg()))
      ensures StopCriteria.Consults(|procedurePoints|) && StopCriteria.MAX_ITERATIONS_NUM <= |procedurePoints| ==> r
      ensures !Alg().ByTraining? ==>
        unchanged(Parts(Alg())) && r == StatelessAchieved(Alg(), procedurePoints, costFunction)
      ensures Alg().ByTraining? ==>
        var t := Alg().training;
        t.prevGradient == old(t.prevGradient) && t.done == old(t.done) && (2 <= |procedurePoints| ==> t.Ready())
      ensures Alg().ByTraining? && StopCriteria.Consults(|procedurePoints|) ==>
        var t := Alg().training;
        var m := t.stopCriteria;
        && (old(t.done || m.ek.IsEmpty() || m.mk.IsEmpty()) ==> r && unchanged(Parts(Alg())))
        && (!old(t.done || m.ek.IsEmpty() || m.mk.IsEmpty()) ==>
              && Guide(old(m.curSum), old(m.i), old(m.qk), old(m.ek.items), old(m.mk.items), t.prevGradient, costFunction.sqrt)
                 == Guidance(m.curSum, m.i, m.qk, m.ek.items, m.mk.items, t.anew)
              && (r <==> || StopCriteria.MAX_ITERATIONS_NUM <= |procedurePoints|
                         || (m.baseStopping.Some? && CommonAchieved(m.baseStopping.value, procedurePoints, costFunction, costFunction.sqrt))))
    {
      var n := |procedurePoints|;
      if n == 0 || n == 1 {
        return false;
      }
      var specified: bool;
      match Alg() {
        case ByDescent(d) =>
          specified := SpecifiedCriteria(d.stopCriteria, procedurePoints, costFunction, costFunction.sqrt);
        case ByKaczmarz(k) =>
          assert false;
        case ByCubic(c) =>
          match c.stopCriteria {
            case Common(s) =>
              specified := SpecifiedCriteria(s, procedurePoints, costFunction, costFunction.sqrt);
            case Simple(_) =>
              specified := c.SimpleSpecified();
          }
        case ByTraining(t) =>
          specified := t.SpecifiedCriteria(procedurePoints, costFunction);
      }
      r := specified || StopCriteria.BasicCriteria(n);
    }

    /** One recursion of `optimize` before its stop check: the next point,
        `conductOneIteration` of the last one, is appended. What holds of the
        points from `n0` on holds of them with the new point. */
    method Round(polinomMin: (real, real) -> real, fuel: nat, ghost n0: nat, ghost common: Option<CommonStopping>)
      returns (r: Result<()>)
      requires Valid() && IsSqrt(costFunction.sqrt)
      requires 1 <= n0 <= |procedurePoints|
      requires DimensionFrom(procedurePoints, n0)
      requires Alg().ByDescent? ==> DescentFrom(procedurePoints, n0, costFunction)
      requires common == CommonOf(Alg())
      requires n0 < |procedurePoints| && common.Some? ==>
        && Checkable(procedurePoints, costFunction)
        && !CommonAchieved(common.value, procedurePoints, costFunction, costFunction.sqrt)
      requires common.Some? ==> NotAchievedBefore(common.value, procedurePoints, n0, costFunction)
      modifies this, costFunction, Parts(Alg())
      ensures Valid() && SameParts(Alg())
      ensures r.Err? ==> procedurePoints == old(procedurePoints)
      ensures r.Ok? ==>
        && |procedurePoints| == old(|procedurePoints|) + 1
        && old(procedurePoints) <= procedurePoints
        && SameLength(procedurePoints[|procedurePoints| - 2], procedurePoints[|procedurePoints| - 1])
      ensures r.Ok? && Alg().ByDescent? ==> Descends(procedurePoints[|procedurePoints| - 2], procedurePoints[|procedurePoints| - 1], costFunction)
      ensures Alg().ByDescent? ==> unchanged(Alg().descent)
      ensures Alg().ByCubic? ==> Alg().cubic.stopCriteria == old(Alg().cubic.stopCriteria)
      ensures Alg().ByTraining? && r.Ok? ==> Alg().training.Ready()
      ensures common == CommonOf(Alg())
      ensures DimensionFrom(procedurePoints, n0)
      ensures Alg().ByDescent? ==> DescentFrom(procedurePoints, n0, costFunction)
      ensures common.Some? ==> NotAchievedBefore(common.value, procedurePoints, n0, costFunction)
    {
      var x := Last(procedurePoints);
      var next := ConductOneIteration(x, polinomMin, fuel);
      if next.Err? {
        return Err(next.error);
      }
      ghost var before := procedurePoints;
      procedurePoints := procedurePoints + [next.value];
      ghost var pts := procedurePoints;
      assert pts[|pts| - 2] == x && pts[|pts| - 1] == next.value;
      RoundExtends(before, pts, n0, costFunction, Alg().ByDescent?, common);
      r := Ok(());
    }

    /** One pass of the loop of `optimize`: a round and its stop check. The
        facts the loop keeps about the points from `n0` on are extended to
        the new point. */
    method Iterate(polinomMin: (real, real) -> real, fuel: nat, ghost n0: nat, ghost common: Option<CommonStopping>)
      returns (r: Result<()>, stop: bool)
      requires Valid() && IsSqrt(costFunction.sqrt)
      requires 1 <= n0 <= |procedurePoints|
      requires |procedurePoints| != n0 ==> |procedurePoints| < StopCriteria.MAX_ITERATIONS_NUM
      requires DimensionFrom(procedurePoints, n0)
      requires Alg().ByDescent? ==> DescentFrom(procedurePoints, n0, costFunction)
      requires CommonOf(Alg()) == common
      requires n0 < |procedurePoints| && common.Some? ==>
        && Checkable(procedurePoints, costFunction)
        && !CommonAchieved(common.value, procedurePoints, costFunction, costFunction.sqrt)
      requires common.Some? ==> NotAchievedBefore(common.value, procedurePoints, n0, costFunction)
      modifies this, costFunction, Parts(Alg())
      ensures Valid() && SameParts(Alg())
      ensures r.Err? ==> procedurePoints == old(procedurePoints)
      ensures r.Ok? ==> |procedurePoints| == old(|procedurePoints|) + 1 && old(procedurePoints) <= procedurePoints
      ensures r.Ok? && !stop ==> |procedurePoints| < StopCriteria.MAX_ITERATIONS_NUM
      ensures DimensionFrom(procedurePoints, n0)
      ensures Alg().ByDescent? ==> unchanged(Alg().descent) && DescentFrom(procedurePoints, n0, costFunction)
      ensures Alg().ByCubic? ==> Alg().cubic.stopCriteria == old(Alg().cubic.stopCriteria)
      ensures r.Ok? && stop && !Alg().ByTraining? ==>
        && SameLength(procedurePoints[|procedurePoints| - 2], procedurePoints[|procedurePoints| - 1])
        && StatelessAchieved(Alg(), procedurePoints, costFunction)
      ensures CommonOf(Alg()) == common
      ensures r.Ok? && !stop && common.Some? ==>
        && Checkable(procedurePoints, costFunction)
        && !CommonAchieved(common.value, procedurePoints, costFunction, costFunction.sqrt)
      ensures common.Some? ==> NotAchievedBefore(common.value, procedurePoints, n0, costFunction)
    {
      stop := false;
      r := Round(polinomMin, fuel, n0, common);
      if r.Err? {
        return;
      }
      stop := IsAchieved();
    }

    /** `optimize`, its recursion written as a loop: rounds until the first
        one whose stop check fires. An error ends the run and keeps the points
        appended so far. */
    method Optimize(polinomMin: (real, real) -> real, fuel: nat) returns (r: Result<()>)
      requires Valid() && IsSqrt(costFunction.sqrt)
      modifies this, costFunction, Parts(Alg())
      ensures Valid() && SameParts(Alg())
      ensures old(|procedurePoints|) == 0 ==> r == Err(Runtime) && procedurePoints == []
      ensures old(procedurePoints) <= procedurePoints
      ensures DimensionFrom(procedurePoints, old(|procedurePoints|))
      ensures r.Ok? ==>
        && old(|procedurePoints|) < |procedurePoints|
        && (|procedurePoints| == old(|procedurePoints|) + 1 || |procedurePoints| <= StopCriteria.MAX_ITERATIONS_NUM)
      ensures Alg().ByDescent? ==> DescentFrom(procedurePoints, old(|procedurePoints|), costFunction)
      ensures r.Ok? && !Alg().ByTraining? ==>
        && SameLength(procedurePoints[|procedurePoints| - 2], procedurePoints[|procedurePoints| - 1])
        && StatelessAchieved(Alg(), procedurePoints, costFunction)
      ensures CommonOf(Alg()).Some? ==>
        NotAchievedBefore(CommonOf(Alg()).value, procedurePoints, old(|procedurePoints|), costFunction)
    {
      if |procedurePoints| == 0 {
        return Err(Runtime);
      }
      ghost var n0 := |procedurePoints|;
      ghost var common := CommonOf(Alg());
      ghost var pts := procedurePoints;
      var stop := false;
      while !stop
        invariant Valid() && SameParts(Alg())
        invariant procedurePoints == pts
        invariant old(procedurePoints) <= pts && n0 <= |pts|
        invariant DimensionFrom(pts, n0)
        invariant |pts| <= n0 + 1 || |pts| <= StopCriteria.MAX_ITERATIONS_NUM
        invariant !stop && |pts| != n0 ==> |pts| < StopCriteria.MAX_ITERATIONS_NUM
        invariant stop ==> n0 < |pts|
        invariant Alg().ByDescent? ==> unchanged(Alg().descent)
        invariant Alg().ByCubic? ==> Alg().cubic.stopCriteria == old(Alg().cubic.stopCriteria)
        invariant Alg().ByDescent? ==> DescentFrom(pts, n0, costFunction)
        invariant stop && !Alg().ByTraining? ==>
          && SameLength(pts[|pts| - 2], pts[|pts| - 1])
          && StatelessAchieved(Alg(), pts, costFunction)
        invariant CommonOf(Alg()) == common
        invariant !stop && n0 < |pts| && common.Some? ==>
          && Checkable(pts, costFunction)
          && !CommonAchieved(common.value, pts, costFunction, costFunction.sqrt)
        invariant common.Some? ==> NotAchievedBefore(common.value, pts, n0, costFunction)
        decreases !stop, (if |pts| == n0 then 1 else 0), StopCriteria.MAX_ITERATIONS_NUM - |pts|
      {
        var round;
        round, stop := Iterate(polinomMin, fuel, n0, common);
        if round.Err? {
          return round;
        }
        pts := procedurePoints;
      }
      r := Ok(());
    }

    /** `start`: a start point outside the domain is rejected and nothing is
        appended; otherwise it is appended and the procedure runs. Earlier
        points are kept. */
    method Start(startPoint: Vector, polinomMin: (real, real) -> real, fuel: nat) returns (r: Result<()>)
      requires Valid() && IsSqrt(costFunction.sqrt)
      modifies this, costFunction, Parts(Alg())
      ensures Valid() && SameParts(Alg())
      ensures !costFunction.Defined(startPoint) ==>
        r == Err(IllegalArgument) && procedurePoints == old(procedurePoints)
      ensures costFunction.Defined(startPoint) ==> old(procedurePoints) + [startPoint] <= procedurePoints
      ensures DimensionFrom(procedurePoints, old(|procedurePoints|) + 1)
      ensures r.Ok? ==>
        && old(|procedurePoints|) + 2 <= |procedurePoints|
        && (|procedurePoints| == old(|procedurePoints|) + 2 || |procedurePoints| <= StopCriteria.MAX_ITERATIONS_NUM)
      ensures r.Ok? && old(|procedurePoints|) == 0 ==> 2 <= |procedurePoints| <= StopCriteria.MAX_ITERATIONS_NUM
      ensures r.Ok? && !Alg().ByTraining? ==>
        && SameLength(procedurePoints[|procedurePoints| - 2], procedurePoints[|procedurePoints| - 1])
        && StatelessAchieved(Alg(), procedurePoints, costFunction)
    {
      if costFunction.rule(startPoint).None? {
        return Err(IllegalArgument);
      }
      procedurePoints := procedurePoints + [startPoint];
      r := Optimize(polinomMin, fuel);
    }
}
}
