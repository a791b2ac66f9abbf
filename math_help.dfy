/** Vector helpers of `MathHelp`, over exact reals. A vector is a `seq<real>`;
    the JScience vector operations become the functions below. `Math.sqrt` is an
    oracle `sqrt` handed in by the caller; `IsSqrt` is what it is assumed to satisfy. */
module MathHelp {
  import opened Wrappers

  type Vector = seq<real>

  /** What a square-root oracle promises on non-negative arguments. */
  ghost predicate IsSqrt(sqrt: real -> real) {
    forall x :: 0.0 <= x ==> 0.0 <= sqrt(x) && sqrt(x) * sqrt(x) == x
  }

  function Add(a: Vector, b: Vector): (r: Vector)
    requires |a| == |b|
    ensures |r| == |a| && forall i | 0 <= i < |r| :: r[i] == a[i] + b[i]
  {
    seq(|a|, i requires 0 <= i < |a| => a[i] + b[i])
  }

  function Sub(a: Vector, b: Vector): (r: Vector)
    requires |a| == |b|
    ensures |r| == |a| && forall i | 0 <= i < |r| :: r[i] == a[i] - b[i]
  {
    seq(|a|, i requires 0 <= i < |a| => a[i] - b[i])
  }

  function Scale(c: real, a: Vector): (r: Vector)
    ensures |r| == |a| && forall i | 0 <= i < |r| :: r[i] == c * a[i]
  {
    seq(|a|, i requires 0 <= i < |a| => c * a[i])
  }

  /** `getTwinVector` as a value: `dim` copies of `r`. */
  function Twin(dim: nat, r: real): (v: Vector)
    ensures |v| == dim && forall i | 0 <= i < dim :: v[i] == r
  {
    seq(dim, _ => r)
  }

  predicate IsZero(x: Vector) {
    forall i | 0 <= i < |x| :: x[i] == 0.0
  }

  /** Inner product, accumulated from the first coordinate to the last. */
  function Dot(a: Vector, b: Vector): real
    requires |a| == |b|
  {
    if |a| == 0 then 0.0 else Dot(a[..|a| - 1], b[..|a| - 1]) + a[|a| - 1] * b[|a| - 1]
  }

  /** The value `norm` computes: the square root of the sum of squares. */
  function EuclideanNorm(x: Vector, sqrt: real -> real): real {
    sqrt(Dot(x, x))
  }

  /** `norm`: accumulates the sum of squares in a loop, then takes its root. */
  method Norm(x: Vector, sqrt: real -> real) returns (n: real)
    ensures n == EuclideanNorm(x, sqrt)
    ensures IsSqrt(sqrt) ==> 0.0 <= n && n * n == Dot(x, x)
  {
    var res := 0.0;
    for i := 0 to |x|
      invariant res == Dot(x[..i], x[..i])
    {
      assert x[..i + 1][..i] == x[..i];
      res := res + x[i] * x[i];
    }
    assert x[..|x|] == x;
    NormFacts(x, sqrt);
    n := sqrt(res);
  }

  /** `getDistance`: a null argument or a dimension mismatch is rejected;
      otherwise the Euclidean distance. */
  function GetDistance(one: Option<Vector>, two: Option<Vector>, sqrt: real -> real): (r: Result<real>)
    ensures r.Err? <==> (one.None? || two.None? || |one.value| != |two.value|)
    ensures r.Err? ==> r.error == IllegalArgument
    ensures r.Ok? && IsSqrt(sqrt) ==> 0.0 <= r.value && (r.value == 0.0 <==> one.value == two.value)
  {
    if one.None? || two.None? || |one.value| != |two.value| then Err(IllegalArgument)
    else
      var d := Sub(two.value, one.value);
      NormFacts(d, sqrt);
      assert IsZero(d) <==> one.value == two.value;
      Ok(EuclideanNorm(d, sqrt))
  }

  /** `normal`: the zero vector when the norm is zero, otherwise x scaled by 1/norm. */
  function Normal(x: Vector, sqrt: real -> real): (r: Vector)
    ensures |r| == |x|
  {
    var n := EuclideanNorm(x, sqrt);
    if n == 0.0 then Twin(|x|, 0.0) else Scale(1.0 / n, x)
  }

  /** `addDistance`: moves `vector` by `distance` towards `direction`. */
  function AddDistance(vector: Vector, direction: Vector, distance: real, sqrt: real -> real): (r: Vector)
    requires |vector| == |direction|
    ensures |r| == |vector|
  {
    Add(vector, Scale(distance, Normal(Sub(direction, vector), sqrt)))
  }

  /** `getTwinVector`: fills a fresh array with `r`. */
  method GetTwinVector(dim: nat, r: real) returns (v: Vector)
    ensures v == Twin(dim, r)
  {
    var reals := new real[dim];
    for i := 0 to dim
      invariant forall k | 0 <= k < i :: reals[k] == r
    {
      reals[i] := r;
    }
    v := reals[..];
  }

  // ----------------------------------------------------------------- lemmas

  lemma {:induction false} SumOfSquaresNonNegative(x: Vector)
    ensures 0.0 <= Dot(x, x)
  {
    if |x| > 0 {
      SumOfSquaresNonNegative(x[..|x| - 1]);
    }
  }

  /** `a * b` behind a function symbol, so that facts about a square `x * x`
      stay linear facts about one term. */
  function Mul(a: real, b: real): real { a * b }

  lemma MulPositive(a: real, b: real)
    requires 0.0 < a && 0.0 < b
    ensures 0.0 < Mul(a, b)
  {
  }

  lemma SquarePositive(x: real)
    requires x != 0.0
    ensures 0.0 < Mul(x, x)
  {
    if 0.0 < x {
      MulPositive(x, x);
    } else {
      MulPositive(-x, -x);
      assert Mul(-x, -x) == Mul(x, x);
    }
  }

  /** Squaring is strictly increasing on the non-negative reals. */
  lemma SquareIncreasing(s: real, m: real)
    requires 0.0 <= s < m
    ensures Mul(s, s) < Mul(m, m)
  {
    assert Mul(s, s) <= Mul(s, m);
    assert Mul(s, m) < Mul(m, m);
  }

  /** Two non-negative reals with the same square are equal. */
  lemma SquareInjective(s: real, m: real)
    requires 0.0 <= s && 0.0 <= m && s * s == m * m
    ensures s == m
  {
    if s < m {
      SquareIncreasing(s, m);
    } else if m < s {
      SquareIncreasing(m, s);
    }
  }

  /** One non-zero coordinate makes the sum of squares positive. */
  lemma {:induction false} SumOfSquaresPositive(x: Vector, i: int)
    requires 0 <= i < |x| && x[i] != 0.0
    ensures 0.0 < Dot(x, x)
  {
    var n := |x| - 1;
    SumOfSquaresNonNegative(x[..n]);
    if i == n {
      SquarePositive(x[n]);
    } else {
      assert x[..n][i] == x[i];
      SumOfSquaresPositive(x[..n], i);
      assert 0.0 <= Mul(x[n], x[n]);
    }
  }

  lemma {:induction false} SumOfSquaresOfZero(x: Vector)
    requires IsZero(x)
    ensures Dot(x, x) == 0.0
  {
    if |x| > 0 {
      var n := |x| - 1;
      assert IsZero(x[..n]);
      SumOfSquaresOfZero(x[..n]);
    }
  }

  lemma SumOfSquaresZero(x: Vector)
    ensures Dot(x, x) == 0.0 <==> IsZero(x)
  {
    if IsZero(x) {
      SumOfSquaresOfZero(x);
    } else {
      var i :| 0 <= i < |x| && x[i] != 0.0;
      SumOfSquaresPositive(x, i);
    }
  }

  /** What `norm` promises once `sqrt` is a square root. */
  lemma NormFacts(x: Vector, sqrt: real -> real)
    ensures 0.0 <= Dot(x, x) && (Dot(x, x) == 0.0 <==> IsZero(x))
    ensures IsSqrt(sqrt) ==>
      && 0.0 <= EuclideanNorm(x, sqrt)
      && EuclideanNorm(x, sqrt) * EuclideanNorm(x, sqrt) == Dot(x, x)
      && (EuclideanNorm(x, sqrt) == 0.0 <==> IsZero(x))
  {
    SumOfSquaresNonNegative(x);
    SumOfSquaresZero(x);
    if IsSqrt(sqrt) {
      var s := Dot(x, x);
      var n := sqrt(s);
      assert 0.0 <= n && n * n == s;
      if s == 0.0 {
        SquareInjective(n, 0.0);
      }
    }
  }

  lemma {:induction false} DotSymmetric(a: Vector, b: Vector)
    requires |a| == |b|
    ensures Dot(a, b) == Dot(b, a)
  {
    if |a| > 0 {
      DotSymmetric(a[..|a| - 1], b[..|a| - 1]);
    }
  }

  lemma {:induction false} DotScaleLeft(c: real, a: Vector, b: Vector)
    requires |a| == |b|
    ensures Dot(Scale(c, a), b) == c * Dot(a, b)
  {
    if |a| > 0 {
      var n := |a| - 1;
      assert forall i | 0 <= i < n :: Scale(c, a)[..n][i] == Scale(c, a[..n])[i];
      assert Scale(c, a)[..n] == Scale(c, a[..n]);
      DotScaleLeft(c, a[..n], b[..n]);
    }
  }

  lemma {:induction false} DotAddRight(a: Vector, b: Vector, c: Vector)
    requires |a| == |b| == |c|
    ensures Dot(a, Add(b, c)) == Dot(a, b) + Dot(a, c)
  {
    if |a| > 0 {
      var n := |a| - 1;
      assert forall i | 0 <= i < n :: Add(b, c)[..n][i] == Add(b[..n], c[..n])[i];
      assert Add(b, c)[..n] == Add(b[..n], c[..n]);
      DotAddRight(a[..n], b[..n], c[..n]);
    }
  }

  lemma {:induction false} DotSubRight(a: Vector, b: Vector, c: Vector)
    requires |a| == |b| == |c|
    ensures Dot(a, Sub(b, c)) == Dot(a, b) - Dot(a, c)
  {
    if |a| > 0 {
      var n := |a| - 1;
      assert forall i | 0 <= i < n :: Sub(b, c)[..n][i] == Sub(b[..n], c[..n])[i];
      assert Sub(b, c)[..n] == Sub(b[..n], c[..n]);
      DotSubRight(a[..n], b[..n], c[..n]);
    }
  }

  /** The root of c*c is |c|. */
  lemma SqrtOfSquare(sqrt: real -> real, c: real)
    requires IsSqrt(sqrt)
    ensures sqrt(c * c) == (if c < 0.0 then -c else c)
  {
    var m := if c < 0.0 then -c else c;
    assert c * c == m * m;
    var s := sqrt(m * m);
    assert 0.0 <= s && s * s == m * m;
    SquareInjective(s, m);
  }

  /** Squared length of a scaled vector. */
  lemma {:induction false} DotOfScaled(d: real, u: Vector)
    ensures Dot(Scale(d, u), Scale(d, u)) == d * d * Dot(u, u)
  {
    DotScaleLeft(d, u, Scale(d, u));
    DotSymmetric(u, Scale(d, u));
    DotScaleLeft(d, u, u);
  }

  /** `normal` of a non-zero vector has norm 1; of a zero vector it is the zero vector. */
  lemma NormalIsUnit(x: Vector, sqrt: real -> real)
    requires IsSqrt(sqrt)
    ensures IsZero(x) ==> Normal(x, sqrt) == Twin(|x|, 0.0)
    ensures !IsZero(x) ==> EuclideanNorm(Normal(x, sqrt), sqrt) == 1.0
  {
    NormFacts(x, sqrt);
    var n := EuclideanNorm(x, sqrt);
    if !IsZero(x) {
      var u := Scale(1.0 / n, x);
      DotOfScaled(1.0 / n, x);
      assert Dot(u, u) == (1.0 / n) * (1.0 / n) * (n * n);
      assert Dot(u, u) == 1.0;
      SqrtOfSquare(sqrt, 1.0);
    }
  }

  /** `addDistance(v, v, d)` leaves v where it is. */
  lemma AddDistanceToItself(v: Vector, d: real, sqrt: real -> real)
    requires IsSqrt(sqrt)
    ensures AddDistance(v, v, d, sqrt) == v
  {
    var w := Sub(v, v);
    assert IsZero(w);
    NormalIsUnit(w, sqrt);
  }

  /** Moving by `addDistance` and subtracting the start leaves the scaled direction. */
  lemma AddDistanceOffset(v: Vector, direction: Vector, d: real, sqrt: real -> real)
    requires |v| == |direction|
    ensures Sub(AddDistance(v, direction, d, sqrt), v) == Scale(d, Normal(Sub(direction, v), sqrt))
  {
    var su := Scale(d, Normal(Sub(direction, v), sqrt));
    var r := Sub(AddDistance(v, direction, d, sqrt), v);
    assert forall i | 0 <= i < |r| :: r[i] == su[i];
  }

  /** Scaling a unit vector by d gives a vector of norm |d|. */
  lemma NormOfScaledUnit(d: real, u: Vector, sqrt: real -> real)
    requires IsSqrt(sqrt) && Dot(u, u) == 1.0
    ensures EuclideanNorm(Scale(d, u), sqrt) == (if d < 0.0 then -d else d)
  {
    DotOfScaledUnit(d, u);
    SqrtOfSquare(sqrt, d);
  }

  lemma DotOfScaledUnit(d: real, u: Vector)
    requires Dot(u, u) == 1.0
    ensures Dot(Scale(d, u), Scale(d, u)) == d * d
  {
    DotOfScaled(d, u);
  }

  /** For a direction other than v, `addDistance` lands at distance |d| from v. */
  lemma AddDistanceMovesBy(v: Vector, direction: Vector, d: real, sqrt: real -> real)
    requires IsSqrt(sqrt) && |v| == |direction| && direction != v
    ensures EuclideanNorm(Sub(AddDistance(v, direction, d, sqrt), v), sqrt) == (if d < 0.0 then -d else d)
  {
    var w := Sub(direction, v);
    assert !IsZero(w) by {
      var i :| 0 <= i < |v| && direction[i] != v[i];
      assert w[i] != 0.0;
    }
    NormalIsUnit(w, sqrt);
    var u := Normal(w, sqrt);
    NormFacts(u, sqrt);
    AddDistanceOffset(v, direction, d, sqrt);
    NormOfScaledUnit(d, u, sqrt);
  }

  /** The zero vector of a dimension is `getTwinVector(dim, 0)`. */
  lemma ZeroIsTwin(x: Vector)
    ensures IsZero(x) <==> x == Twin(|x|, 0.0)
  {
  }

  lemma {:induction false} DotWithZero(a: Vector, z: Vector)
    requires |a| == |z| && IsZero(z)
    ensures Dot(a, z) == 0.0
  {
    if |a| > 0 {
      var n := |a| - 1;
      assert IsZero(z[..n]);
      DotWithZero(a[..n], z[..n]);
    }
  }

  lemma NonZeroDotNonZero(a: Vector, z: Vector)
    requires |a| == |z| && Dot(a, z) != 0.0
    ensures !IsZero(z)
  {
    if IsZero(z) {
      DotWithZero(a, z);
    }
  }
}
