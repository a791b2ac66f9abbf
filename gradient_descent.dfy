/** `GradientDescent`: a crude descent step from two probe walks along the
    diagonal direction (0.1, ..., 0.1), one forwards and one backwards. */
module GradientDescentAlgorithm {
  import opened Wrappers
  import opened MathHelp
  import opened CostFunctions
  import opened PureAlgorithms

  const PROBE_STEP: real := 0.1
  /** Probes are taken for j = 1 .. PROBE_LIMIT - 1. */
  const PROBE_LIMIT: int := 100

  /** The j-th probe: x + j delta forwards, x - j delta backwards. */
  function Probe(x: Vector, j: int, forward: bool): (p: Vector)
    ensures |p| == |x|
  {
    var delta := Scale(j as real, Twin(|x|, PROBE_STEP));
    if forward then Add(x, delta) else Sub(x, delta)
  }

  /** The first probe index from j on at which the cost is defined, or
      PROBE_LIMIT when there is none. */
  function FirstDefinedProbe(x: Vector, f: UndeterminateCostFunc, forward: bool, j: int): (k: int)
    requires 1 <= j <= PROBE_LIMIT
    ensures j <= k <= PROBE_LIMIT
    ensures k < PROBE_LIMIT ==> f.Defined(Probe(x, k, forward))
    ensures forall i | j <= i < k :: !f.Defined(Probe(x, i, forward))
    decreases PROBE_LIMIT - j
  {
    if j == PROBE_LIMIT then PROBE_LIMIT
    else if f.Defined(Probe(x, j, forward)) then j
    else FirstDefinedProbe(x, f, forward, j + 1)
  }

  /** The value one probe walk finds: the cost at the first defined probe, or null. */
  function ProbeValue(x: Vector, f: UndeterminateCostFunc, forward: bool): (r: Option<real>)
    ensures r.None? <==> forall i | 1 <= i < PROBE_LIMIT :: !f.Defined(Probe(x, i, forward))
    ensures r.Some? ==> exists i | 1 <= i < PROBE_LIMIT ::
      && f.Defined(Probe(x, i, forward)) && r == f.rule(Probe(x, i, forward))
      && forall k | 1 <= k < i :: !f.Defined(Probe(x, k, forward))
  {
    var k := FirstDefinedProbe(x, f, forward, 1);
    if k < PROBE_LIMIT then f.rule(Probe(x, k, forward)) else None
  }

  /** The difference d of `getAlgorithmStep`: 0.1 when a walk found nothing,
      otherwise fPlus - fMinus, with zero floored to 0.00001. */
  function Difference(fPlus: Option<real>, fMinus: Option<real>): (d: real)
    ensures d != 0.0
    ensures (fPlus.None? || fMinus.None?) ==> d == 0.1
    ensures fPlus.Some? && fMinus.Some? && fPlus.value != fMinus.value ==> d == fPlus.value - fMinus.value
    ensures fPlus.Some? && fMinus.Some? && fPlus.value == fMinus.value ==> d == 0.00001
  {
    var d := if fMinus.None? || fPlus.None? then 0.1 else fPlus.value - fMinus.value;
    if d == 0.0 then 0.00001 else d
  }

  /** The step: x's dimension, every coordinate d/10, never the zero vector
      when x has a coordinate. */
  function DescentStep(x: Vector, f: UndeterminateCostFunc): (step: Vector)
    ensures |step| == |x|
    ensures forall i | 0 <= i < |x| :: step[i] * 10.0 == Difference(ProbeValue(x, f, true), ProbeValue(x, f, false))
    ensures 0 < |x| ==> !IsZero(step)
  {
    var step := Twin(|x|, Difference(ProbeValue(x, f, true), ProbeValue(x, f, false)) / 10.0);
    assert 0 < |x| ==> step[0] != 0.0;
    step
  }

  class GradientDescent {
    var stopCriteria: CommonStopping

    /** The instance initialiser runs the overriding `setDefaultParameters`. */
    constructor()
      ensures stopCriteria == CommonStoppingOf(false, true, true, false)
    {
      stopCriteria := CommonStoppingOf(false, true, true, false);
    }

    /** `setDefaultParameters`: only the two rate checks. */
    method SetDefaultParameters()
      modifies this
      ensures stopCriteria == CommonStoppingOf(false, true, true, false)
      ensures !stopCriteria.byDecisionProximity && !stopCriteria.byConstraintsFulfillment
    {
      stopCriteria := CommonStoppingOf(false, true, true, false);
    }

    /** `isAble`: any cost function. */
    function IsAble(f: UndeterminateCostFunc): (r: bool)
      ensures r
    {
      true
    }

    /** `configureStopCriteria` inherited from `PureAlgorithm`. */
    method ConfigureStopCriteria(error: real, conditions: seq<bool>) returns (r: Result<()>)
      modifies this
      ensures r.Err? <==> ConfiguredCommonStopping(error, conditions).Err?
      ensures r.Err? ==> r.error == IllegalArgument && stopCriteria == old(stopCriteria)
      ensures r.Ok? ==> stopCriteria == ConfiguredCommonStopping(error, conditions).value
    {
      var s := ConfiguredCommonStopping(error, conditions);
      if s.Err? {
        return Err(s.error);
      }
      stopCriteria := s.value;
      r := Ok(());
    }

    /** One probe walk: stops at the first defined probe or after j = 99. */
    static method Walk(x: Vector, f: UndeterminateCostFunc, forward: bool) returns (value: Option<real>)
      ensures value == ProbeValue(x, f, forward)
    {
      value := None;
      var j := 1;
      while value.None? && j < PROBE_LIMIT
        invariant 1 <= j <= PROBE_LIMIT
        invariant value.None? ==> FirstDefinedProbe(x, f, forward, 1) == FirstDefinedProbe(x, f, forward, j)
        invariant value.Some? ==> value == ProbeValue(x, f, forward)
        decreases PROBE_LIMIT - j
      {
        value := f.rule(Probe(x, j, forward));
        j := j + 1;
      }
    }

    /** `getAlgorithmStep`: both walks, the difference, then the step filled
        coordinate by coordinate. The cost function's state is not touched. */
    method AlgorithmStep(x: Vector, f: UndeterminateCostFunc) returns (step: Vector)
      ensures step == DescentStep(x, f)
    {
      var fPlus := Walk(x, f, true);
      var fMinus := Walk(x, f, false);
      var d := if fMinus.None? || fPlus.None? then 0.1 else fPlus.value - fMinus.value;
      if d == 0.0 {
        d := 0.00001;
      }
      assert d == Difference(fPlus, fMinus);
      step := FilledStep(|x|, d / 10.0);
    }

    /** The array `gradReal` of `getAlgorithmStep`, every coordinate set to v. */
    static method FilledStep(n: nat, v: real) returns (step: Vector)
      ensures step == Twin(n, v)
    {
      var gradReal := new real[n];
      for i := 0 to n
        invariant forall k | 0 <= k < i :: gradReal[k] == v
      {
        gradReal[i] := v;
      }
      step := gradReal[..];
    }
  }
}
