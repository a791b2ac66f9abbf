/** `UndeterminateCostFunc`: a cost function whose domain is unknown. Points
    outside the domain are pulled back by a bounded bisection-like search whose
    answers are memoised in `covered`, keyed by (point outside, direction point).
    The cost rule itself is a partial function: `None` means "outside the domain". */
module CostFunctions {
  import opened Wrappers
  import opened MathHelp
  import opened Configurations

  /** The zero-difference floor of `getPartialDerivative`. */
  const ZERO_DIFFERENCE: real := 0.00001

  class UndeterminateCostFunc {
    const rule: Vector -> Option<real>
    const dimension: int
    const accuracy: real          // config.accuracyOfDomainSearch
    const lower: real             // config.searchRange[0]
    const upper: real             // config.searchRange[1]
    const maxRecursion: int       // config.getMaxRecursionNumber()
    const sqrt: real -> real      // Math.sqrt
    const derivative: Vector -> real  // getDerivative, inherited and not part of this model

    var covered: map<(Vector, Vector), Vector>
    var recursionNum: int
    var currentSearchPair: (Vector, Vector)

    /** Every memoised answer is the answer a fresh search would give. */
    ghost predicate Valid()
      reads this
    {
      && accuracy != 0.0
      && lower <= upper
      && Memoised(covered)
    }

    /** Every key has the function's dimension and maps to its search answer. */
    predicate Memoised(m: map<(Vector, Vector), Vector>) {
      forall k | k in m :: |k.0| == dimension && |k.1| == dimension && m[k] == NearestDomainPoint(k.0, k.1)
    }

    /** Storing a search answer keeps the memo table correct. */
    lemma MemoisedUpdate(m: map<(Vector, Vector), Vector>, p: Vector, d: Vector)
      requires Memoised(m) && |p| == dimension && |d| == dimension
      ensures Memoised(m[(p, d) := NearestDomainPoint(p, d)])
    {
    }

    constructor <A>(rule: Vector -> Option<real>, dimension: int, config: Config<A>,
                    sqrt: real -> real, derivative: Vector -> real)
      requires config.Valid()
      ensures this.rule == rule && this.dimension == dimension && this.sqrt == sqrt && this.derivative == derivative
      ensures accuracy == config.accuracyOfDomainSearch && lower == config.Lower() && upper == config.Upper()
      ensures maxRecursion == MaxRecursionNumber(config)
      ensures covered == map[] && recursionNum == 0
      ensures Valid()
    {
      this.rule := rule;
      this.dimension := dimension;
      this.accuracy := config.accuracyOfDomainSearch;
      this.lower := config.Lower();
      this.upper := config.Upper();
      this.maxRecursion := MaxRecursionNumber(config);
      this.sqrt := sqrt;
      this.derivative := derivative;
      covered := map[];
      recursionNum := 0;
      currentSearchPair := ([], []);
    }

    predicate Defined(x: Vector) {
      rule(x).Some?
    }

    /** `correctToSearchRange`: each coordinate clamped into the search range. */
    function Clamp(p: Vector): (c: Vector)
      ensures |c| == |p|
      ensures forall i | 0 <= i < |p| :: lower <= upper ==> lower <= c[i] <= upper
      ensures forall i | 0 <= i < |p| :: lower <= p[i] <= upper ==> c[i] == p[i]
    {
      seq(|p|, i requires 0 <= i < |p| => if p[i] < lower then lower else if p[i] > upper then upper else p[i])
    }

    /** `domainSearch` as a value: from `out` towards `inside`, the probe at half
        the distance (then a third, a quarter, ...) of the current bracket.
        `rec` is `recursionNum` on entry and `entry` the memoised answer; the
        result is the final answer and the final `recursionNum`. */
    function Search(out: Vector, inside: Vector, iteration: int, rec: int, entry: Vector): (res: (Vector, int))
      requires |out| == |inside| && 1 <= iteration
      ensures res.0 == entry || Defined(res.0)
      ensures |entry| == |out| ==> |res.0| == |out|
      ensures rec <= res.1 <= (if rec > maxRecursion then rec else maxRecursion + 1)
      decreases maxRecursion + 1 - rec
    {
      if rec > maxRecursion then (entry, rec)
      else
        var rec1 := rec + 1;
        var dist := EuclideanNorm(Sub(inside, out), sqrt) / (2 * iteration) as real;
        var probe := AddDistance(out, inside, dist, sqrt);
        if Defined(probe) then
          if dist > accuracy then Search(out, probe, 1, rec1, probe) else (probe, rec1)
        else if dist > accuracy then Search(out, inside, iteration + 1, rec1, entry)
        else if iteration != 1 then Search(probe, inside, 1, rec1, entry)
        else (entry, rec1)
    }

    /** The answer `initiateSearch` memoises: the clamped point when it is in
        the domain, otherwise the search result starting from `directionPoint`. */
    function NearestDomainPoint(p: Vector, directionPoint: Vector): (r: Vector)
      requires |p| == |directionPoint|
      ensures |r| == |p|
      ensures r == directionPoint || Defined(r)
    {
      var c := Clamp(p);
      if Defined(c) then c else Search(c, directionPoint, 1, 0, directionPoint).0
    }

    /** `recursionNum` after `initiateSearch(p, directionPoint)`. */
    function SearchCalls(p: Vector, directionPoint: Vector): (n: int)
      requires |p| == |directionPoint|
      ensures 0 <= n <= (if maxRecursion < 0 then 0 else maxRecursion + 1)
    {
      var c := Clamp(p);
      if Defined(c) then 0 else Search(c, directionPoint, 1, 0, directionPoint).1
    }

    /** `getNearestDomainPoint` with its argument checks: both points must have
        the function's dimension and the first must lie outside the domain. */
    function NearestDomainPointResult(p: Vector, directionPoint: Vector): (r: Result<Vector>)
      ensures r.Err? <==> |p| != dimension || |directionPoint| != dimension || Defined(p)
      ensures r.Err? ==> r.error == IllegalArgument
      ensures r.Ok? ==> |r.value| == dimension && (r.value == directionPoint || Defined(r.value))
    {
      if |p| != dimension || |directionPoint| != dimension then Err(IllegalArgument)
      else if Defined(p) then Err(IllegalArgument)
      else Ok(NearestDomainPoint(p, directionPoint))
    }

    /** The point `addDelta` builds before its domain check: `accuracy` added
        to coordinate `dim`, or to every coordinate when `dim` is null. */
    function Shifted(x: Vector, dim: Option<int>): (r: Vector)
      ensures |r| == |x|
      ensures forall i | 0 <= i < |x| :: r[i] == (if dim.None? || dim.value == i then x[i] + accuracy else x[i])
    {
      seq(|x|, i requires 0 <= i < |x| => if dim.None? || dim.value == i then x[i] + accuracy else x[i])
    }

    /** `addDelta`: the shifted point, or the nearest domain point towards x. */
    function AddDeltaPoint(x: Vector, dim: Option<int>): (r: Vector)
      requires |x| == dimension
      ensures |r| == |x|
      ensures Defined(Shifted(x, dim)) ==> r == Shifted(x, dim)
      ensures r == x || Defined(r)
    {
      var xPlus := Shifted(x, dim);
      if Defined(xPlus) then xPlus else NearestDomainPoint(xPlus, x)
    }

    /** The forward difference of `getPartialDerivative`, with the zero floor. */
    function DifferenceQuotient(d: real): (q: real)
      requires accuracy != 0.0
      ensures q != 0.0
    {
      (if d == 0.0 then ZERO_DIFFERENCE else d) / accuracy
    }

    /** The quotient times the accuracy gives back the difference, or the
        floor when the difference is zero. */
    lemma DifferenceQuotientScaled(d: real)
      requires accuracy != 0.0
      ensures d != 0.0 ==> DifferenceQuotient(d) * accuracy == d
      ensures d == 0.0 ==> DifferenceQuotient(d) * accuracy == ZERO_DIFFERENCE
    {
    }

    /** `getPartialDerivative(x, dir)`. The shifted point is built (and may be
        memoised) before x itself is checked against the domain. */
    function PartialDerivativeResult(x: Vector, dir: int): (r: Result<real>)
      requires accuracy != 0.0
      ensures r.Err? <==> |x| != dimension || dir < 0 || dir > |x| - 1 || !Defined(x)
      ensures r.Err? ==> r.error == IllegalArgument
      ensures r.Ok? ==> r.value != 0.0
      ensures r.Ok? ==> var xPlus := AddDeltaPoint(x, Some(dir));
        Defined(xPlus) && r.value == DifferenceQuotient(rule(xPlus).value - rule(x).value)
    {
      if |x| != dimension then Err(IllegalArgument)
      else if dir < 0 || dir > |x| - 1 then Err(IllegalArgument)
      else
        var xPlus := AddDeltaPoint(x, Some(dir));
        if !Defined(x) then Err(IllegalArgument)
        else Ok(DifferenceQuotient(rule(xPlus).value - rule(x).value))
    }

    /** `getGradient`: entry i is the partial derivative along coordinate i. */
    function GradientResult(x: Vector): (r: Result<Vector>)
      requires accuracy != 0.0
      ensures r.Err? <==> |x| != dimension || (0 < |x| && !Defined(x))
      ensures r.Err? ==> r.error == IllegalArgument
      ensures r.Ok? ==> |r.value| == |x|
      ensures r.Ok? ==> forall i | 0 <= i < |x| :: PartialDerivativeResult(x, i) == Ok(r.value[i])
    {
      if |x| != dimension then Err(IllegalArgument)
      else if 0 < |x| && !Defined(x) then Err(IllegalArgument)
      else Ok(seq(|x|, i requires 0 <= i < |x| => PartialDerivativeResult(x, i).value))
    }

    /** `getSubGradients(x, n)`: n gradients, all taken at `addDelta(x, null)`. */
    function SubGradientsResult(x: Vector, n: int): (r: Result<seq<Vector>>)
      requires accuracy != 0.0
      ensures r.Err? ==> r.error == IllegalArgument
      ensures r.Err? <==> |x| != dimension || (0 < n && 0 < |x| && !Defined(AddDeltaPoint(x, None)))
      ensures r.Ok? ==> |r.value| == (if n < 0 then 0 else n)
      ensures r.Ok? ==> forall j | 0 <= j < |r.value| :: GradientResult(AddDeltaPoint(x, None)) == Ok(r.value[j])
    {
      if |x| != dimension then Err(IllegalArgument)
      else if n <= 0 then Ok([])
      else
        match GradientResult(AddDeltaPoint(x, None))
        case Err(e) => Err(e)
        case Ok(g) => Ok(seq(n, _ => g))
    }

    /** Every entry of a gradient is a floored difference quotient, so a
        gradient of positive dimension is never the zero vector. */
    lemma GradientNeverZero(x: Vector)
      requires accuracy != 0.0
      requires GradientResult(x).Ok? && 0 < |x|
      ensures !IsZero(GradientResult(x).value)
      ensures 0.0 < Dot(GradientResult(x).value, GradientResult(x).value)
    {
      var g := GradientResult(x).value;
      assert PartialDerivativeResult(x, 0) == Ok(g[0]);
      SumOfSquaresPositive(g, 0);
    }

    // ------------------------------------------------------------ methods

    /** `domainSearch`: rewrites the memoised answer of `currentSearchPair`
        with every in-domain probe, and counts its calls in `recursionNum`. */
    method DomainSearch(out: Vector, inside: Vector, iteration: int)
      requires |out| == |inside| && 1 <= iteration
      requires currentSearchPair in covered
      modifies this
      ensures var r := Search(out, inside, iteration, old(recursionNum), old(covered[currentSearchPair]));
        covered == old(covered)[currentSearchPair := r.0] && recursionNum == r.1
      ensures currentSearchPair == old(currentSearchPair)
      decreases maxRecursion + 1 - recursionNum
    {
      if recursionNum > maxRecursion {
        return;
      }
      recursionNum := recursionNum + 1;
      var curDistance := GetDistance(Some(out), Some(inside), sqrt).value / (2 * iteration) as real;
      var curPoint := AddDistance(out, inside, curDistance, sqrt);
      if Defined(curPoint) {
        covered := covered[currentSearchPair := curPoint];
        if curDistance > accuracy {
          DomainSearch(out, curPoint, 1);
        }
      } else if curDistance > accuracy {
        DomainSearch(out, inside, iteration + 1);
      } else if iteration != 1 {
        DomainSearch(curPoint, inside, 1);
      }
    }

    /** `initiateSearch`: memoises `directionPoint` first, then the clamped
        point if it is in the domain, otherwise whatever the search finds. */
    method InitiateSearch(p: Vector, directionPoint: Vector)
      requires Valid() && |p| == dimension && |directionPoint| == dimension
      modifies this
      ensures Valid()
      ensures covered == old(covered)[(p, directionPoint) := NearestDomainPoint(p, directionPoint)]
      ensures recursionNum == SearchCalls(p, directionPoint)
      ensures currentSearchPair == (p, directionPoint)
    {
      recursionNum := 0;
      currentSearchPair := (p, directionPoint);
      var correctedToRange := Clamp(p);
      ghost var before := covered;
      MemoisedUpdate(before, p, directionPoint);
      covered := covered[(p, directionPoint) := directionPoint];
      if Defined(correctedToRange) {
        covered := covered[(p, directionPoint) := correctedToRange];
      } else {
        DomainSearch(correctedToRange, directionPoint, 1);
      }
      assert covered == before[(p, directionPoint) := NearestDomainPoint(p, directionPoint)];
    }

    /** `getNearestDomainPoint`: a memoised answer is returned as it is,
        without a search; otherwise a search is run and its answer memoised. */
    method GetNearestDomainPoint(p: Vector, directionPoint: Vector) returns (r: Result<Vector>)
      requires Valid()
      modifies this
      ensures Valid()
      ensures r == NearestDomainPointResult(p, directionPoint)
      ensures r.Ok? ==> covered == old(covered)[(p, directionPoint) := r.value]
      ensures r.Err? ==> covered == old(covered)
      ensures r.Ok? && old((p, directionPoint) in covered) ==> recursionNum == old(recursionNum)
      ensures r.Ok? && old((p, directionPoint) !in covered) ==> recursionNum == SearchCalls(p, directionPoint)
    {
      if |p| != dimension || |directionPoint| != dimension {
        return Err(IllegalArgument);
      }
      if Defined(p) {
        return Err(IllegalArgument);
      }
      if (p, directionPoint) in covered {
        return Ok(covered[(p, directionPoint)]);
      }
      InitiateSearch(p, directionPoint);
      r := Ok(covered[(p, directionPoint)]);
    }

    /** The coordinate loop of `addDelta`. */
    method FillShifted(x: Vector, dim: Option<int>) returns (xPlus: Vector)
      ensures xPlus == Shifted(x, dim)
    {
      var reals := new real[|x|];
      for i := 0 to |x|
        invariant forall k | 0 <= k < i :: reals[k] == Shifted(x, dim)[k]
      {
        if (dim.Some? && i == dim.value) || dim.None? {
          reals[i] := x[i] + accuracy;
        } else {
          reals[i] := x[i];
        }
      }
      xPlus := reals[..];
    }

    /** `addDelta`: fills the shifted point coordinate by coordinate, then falls
        back to the nearest domain point towards x. */
    method AddDelta(x: Vector, dim: Option<int>) returns (xPlus: Vector)
      requires Valid() && |x| == dimension
      modifies this
      ensures Valid()
      ensures xPlus == AddDeltaPoint(x, dim)
      ensures forall k | k in old(covered) :: k in covered && covered[k] == old(covered)[k]
    {
      xPlus := FillShifted(x, dim);
      if !Defined(xPlus) {
        var r := GetNearestDomainPoint(xPlus, x);
        xPlus := r.value;
      }
    }

    /** `getPartialDerivative`. */
    method PartialDerivative(x: Vector, dir: int) returns (r: Result<real>)
      requires Valid()
      modifies this
      ensures Valid()
      ensures r == PartialDerivativeResult(x, dir)
      ensures forall k | k in old(covered) :: k in covered && covered[k] == old(covered)[k]
    {
      if |x| != dimension {
        return Err(IllegalArgument);
      }
      if dir < 0 || dir > |x| - 1 {
        return Err(IllegalArgument);
      }
      var xPlus := AddDelta(x, Some(dir));
      var f := rule(x);
      if f.None? {
        return Err(IllegalArgument);
      }
      var fPlus := rule(xPlus);
      var d := fPlus.value - f.value;
      if d == 0.0 {
        d := ZERO_DIFFERENCE;
      }
      r := Ok(d / accuracy);
    }

    /** `getGradient`: one partial derivative per coordinate. */
    method Gradient(x: Vector) returns (r: Result<Vector>)
      requires Valid()
      modifies this
      ensures Valid()
      ensures r == GradientResult(x)
      ensures forall k | k in old(covered) :: k in covered && covered[k] == old(covered)[k]
    {
      if |x| != dimension {
        return Err(IllegalArgument);
      }
      var reals := new real[|x|];
      for i := 0 to |x|
        invariant Valid()
        invariant 0 < i ==> Defined(x)
        invariant forall k | 0 <= k < i :: PartialDerivativeResult(x, k) == Ok(reals[k])
        invariant forall k | k in old(covered) :: k in covered && covered[k] == old(covered)[k]
      {
        var d := PartialDerivative(x, i);
        if d.Err? {
          return Err(d.error);
        }
        reals[i] := d.value;
      }
      assert reals[..] == GradientResult(x).value;
      r := Ok(reals[..]);
    }

    /** `getSubGradients`: n times, the gradient at `addDelta(x, null)`. */
    method SubGradients(x: Vector, n: int) returns (r: Result<seq<Vector>>)
      requires Valid()
      modifies this
      ensures Valid()
      ensures r == SubGradientsResult(x, n)
      ensures forall k | k in old(covered) :: k in covered && covered[k] == old(covered)[k]
    {
      if |x| != dimension {
        return Err(IllegalArgument);
      }
      var subgradients: seq<Vector> := [];
      var i := 0;
      while i < n
        invariant 0 <= i <= (if n < 0 then 0 else n)
        invariant Valid()
        invariant |subgradients| == i
        invariant 0 < i ==> GradientResult(AddDeltaPoint(x, None)).Ok?
        invariant forall j | 0 <= j < i :: GradientResult(AddDeltaPoint(x, None)) == Ok(subgradients[j])
        invariant forall k | k in old(covered) :: k in covered && covered[k] == old(covered)[k]
      {
        var newX := AddDelta(x, None);
        var g := Gradient(newX);
        if g.Err? {
          return Err(g.error);
        }
        subgradients := subgradients + [g.value];
        i := i + 1;
      }
      if 0 < n {
        var g := GradientResult(AddDeltaPoint(x, None)).value;
        assert subgradients == seq(n, _ => g);
      }
      r := Ok(subgradients);
    }
  }
}
