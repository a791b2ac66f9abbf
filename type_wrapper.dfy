/** `TypeWrapper`: converts between the caller's coordinate type `T` and the
    reals the algorithms work on. Two rules do the conversions, and two maps
    remember every pair already converted, in both directions. A real the
    `T`-rule has no answer for is replaced by the nearest probe around it
    that has one: r + 0.01·i for i = 1, -2, 3, -4, ... below a bound. */
module TypeConversion {
  import opened Wrappers
  import Configurations

  /** The probe counter after n steps of `i := (i + signum(i)) * -1` from 1. */
  function ProbeIndex(n: nat): int {
    if n % 2 == 0 then n + 1 else -(n + 1)
  }

  /** One step of the counter, as the loop writes it. */
  function NextIndex(i: int): int {
    (i + (if i > 0 then 1 else if i < 0 then -1 else 0)) * -1
  }

  /** The counter starts at 1 and each step of the loop moves it to the next
      probe index. */
  lemma ProbeIndexFollowsLoop(n: nat)
    ensures ProbeIndex(0) == 1
    ensures ProbeIndex(n + 1) == NextIndex(ProbeIndex(n))
  {
  }

  /** The probes alternate in sign and grow by one step in size: the search
      never probes r itself and never probes the same point twice. */
  lemma ProbesAlternate(m: nat, n: nat)
    ensures ProbeIndex(n) != 0
    ensures (ProbeIndex(n) > 0) <==> n % 2 == 0
    ensures ProbeIndex(n) * ProbeIndex(n) == (n + 1) * (n + 1)
    ensures m != n ==> ProbeIndex(m) != ProbeIndex(n)
  {
  }

  /** The n-th point the search tries around r. */
  function Probe(r: real, n: nat): real {
    r + Configurations.DEFAULT_ACCURACY * (ProbeIndex(n) as real)
  }

  /** What the search finds from probe n on: the first answer of `rule` at a
      probe whose index is below `bound`; the loop stops at the first index
      that is not. */
  function FirstInterpretation<T>(rule: real -> Option<T>, r: real, bound: int, n: nat): Option<T>
    decreases if n <= bound + 1 then bound + 2 - n else 0, n % 2
  {
    if ProbeIndex(n) >= bound then None
    else if rule(Probe(r, n)).Some? then rule(Probe(r, n))
    else FirstInterpretation(rule, r, bound, n + 1)
  }

  /** Probe m is tried when every counter value from n up to m is below the bound. */
  ghost predicate Reached(bound: int, n: nat, m: nat) {
    forall k: nat | n <= k <= m :: ProbeIndex(k) < bound
  }

  /** A found value is the rule's answer at a reached probe, and every earlier
      probe had no answer. */
  lemma {:induction false} FoundAtFirstAnswer<T>(rule: real -> Option<T>, r: real, bound: int, n: nat)
    returns (m: nat)
    requires FirstInterpretation(rule, r, bound, n).Some?
    ensures n <= m && Reached(bound, n, m)
    ensures rule(Probe(r, m)) == FirstInterpretation(rule, r, bound, n)
    ensures forall k: nat | n <= k < m :: rule(Probe(r, k)).None?
    decreases if n <= bound + 1 then bound + 2 - n else 0, n % 2
  {
    if rule(Probe(r, n)).Some? {
      m := n;
    } else {
      m := FoundAtFirstAnswer(rule, r, bound, n + 1);
    }
  }

  /** Nothing is found exactly when no reached probe has an answer. */
  lemma {:induction false} NothingFound<T>(rule: real -> Option<T>, r: real, bound: int, n: nat)
    ensures FirstInterpretation(rule, r, bound, n).None? <==>
      forall m: nat | n <= m && Reached(bound, n, m) :: rule(Probe(r, m)).None?
    decreases if n <= bound + 1 then bound + 2 - n else 0, n % 2
  {
    if ProbeIndex(n) >= bound {
      forall m: nat | n <= m
        ensures !Reached(bound, n, m)
      {
        assert n <= n <= m;
      }
    } else if rule(Probe(r, n)).Some? {
      assert Reached(bound, n, n);
    } else {
      NothingFound(rule, r, bound, n + 1);
      if FirstInterpretation(rule, r, bound, n + 1).None? {
        forall m: nat | n <= m && Reached(bound, n, m)
          ensures rule(Probe(r, m)).None?
        {
          if m != n {
            assert Reached(bound, n + 1, m);
          }
        }
      } else {
        var m :| n + 1 <= m && Reached(bound, n + 1, m) && rule(Probe(r, m)).Some?;
        assert Reached(bound, n, m);
      }
    }
  }

  /** Every entry of `before` is still in `after`, with the same value. */
  ghost predicate Extends<K, V>(after: map<K, V>, before: map<K, V>) {
    forall k | k in before :: k in after && after[k] == before[k]
  }

  /** y is x converted coordinate by coordinate through the map m. */
  ghost predicate ConvertedBy<T>(m: map<real, T>, x: seq<real>, y: seq<T>) {
    |x| == |y| && forall k | 0 <= k < |x| :: x[k] in m && m[x[k]] == y[k]
  }

  /** A map determines the conversion it makes. */
  lemma ConvertedByUnique<T>(m: map<real, T>, x: seq<real>, y: seq<T>, z: seq<T>)
    requires ConvertedBy(m, x, y) && ConvertedBy(m, x, z)
    ensures y == z
  {
    assert |y| == |z|;
    forall k | 0 <= k < |y|
      ensures y[k] == z[k]
    {
      assert m[x[k]] == y[k] && m[x[k]] == z[k];
    }
  }

  /** y is x converted element by element through the map m. */
  ghost predicate ConvertedTo<T>(m: map<T, real>, x: seq<T>, y: seq<real>) {
    |x| == |y| && forall k | 0 <= k < |x| :: x[k] in m && m[x[k]] == y[k]
  }

  /** A conversion stays valid when the map only grows. */
  lemma ConvertedByExtends<T>(m: map<real, T>, m': map<real, T>, x: seq<real>, y: seq<T>)
    requires ConvertedBy(m, x, y) && Extends(m', m)
    ensures ConvertedBy(m', x, y)
  {
  }

  /** A converted prefix grows by one coordinate the map converts. */
  lemma ConvertedByAppend<T>(m: map<real, T>, x: seq<real>, y: seq<T>, a: real, b: T)
    requires ConvertedBy(m, x, y) && a in m && m[a] == b
    ensures ConvertedBy(m, x + [a], y + [b])
  {
  }

  /** The same two facts for the conversion from `T` to reals. */
  lemma ConvertedToExtends<T>(m: map<T, real>, m': map<T, real>, x: seq<T>, y: seq<real>)
    requires ConvertedTo(m, x, y) && Extends(m', m)
    ensures ConvertedTo(m', x, y)
  {
  }

  lemma ConvertedToAppend<T>(m: map<T, real>, x: seq<T>, y: seq<real>, a: T, b: real)
    requires ConvertedTo(m, x, y) && a in m && m[a] == b
    ensures ConvertedTo(m, x + [a], y + [b])
  {
  }

  /** Growing a map twice grows it. */
  lemma ExtendsTransitive<K, V>(m0: map<K, V>, m1: map<K, V>, m2: map<K, V>)
    requires Extends(m1, m0) && Extends(m2, m1)
    ensures Extends(m2, m0)
  {
  }

  class TypeWrapper<T(==)> {
    var toRealMap: map<T, real>
    var toTypeMap: map<real, T>
    /** The caller's `T -> Double` rule; `None` is a `null` answer. */
    const toRealRule: T -> Option<real>
    /** The caller's `Double -> T` rule; `None` is a `null` answer. */
    const toTypeRule: real -> Option<T>
    /** The bound of the probe counter, `defaultSearchRange / defaultDomainAccuracy`. */
    const searchBound: int

    /** The search `calculateTypeInterpretation` runs for r. */
    function Search(r: real): (t: Option<T>)
      ensures t.None? <==> forall m: nat | Reached(searchBound, 0, m) :: toTypeRule(Probe(r, m)).None?
    {
      NothingFound(toTypeRule, r, searchBound, 0);
      FirstInterpretation(toTypeRule, r, searchBound, 0)
    }

    /** A pair the wrapper may remember: t converts to r by the rule, or t is
        what the search around r finds. */
    ghost predicate Justified(t: T, r: real) {
      toRealRule(t) == Some(r) || Search(r) == Some(t)
    }

    /** Pairs are stored in both maps at once, so every value of one map is a
        key of the other, and every stored pair is justified. */
    ghost predicate Valid()
      reads this
    {
      ValidMaps(toRealMap, toTypeMap)
    }

    /** What Valid asks of a pair of maps. */
    ghost predicate ValidMaps(toReal: map<T, real>, toType: map<real, T>) {
      && (forall t | t in toReal :: toReal[t] in toType && Justified(t, toReal[t]))
      && (forall r | r in toType :: toType[r] in toReal && Justified(toType[r], r))
    }

    /** Storing a justified pair in both maps keeps them valid. */
    lemma StorePair(toReal: map<T, real>, toType: map<real, T>, t: T, r: real)
      requires ValidMaps(toReal, toType) && Justified(t, r)
      ensures ValidMaps(toReal[t := r], toType[r := t])
    {
    }

    /** Every coordinate a valid wrapper has converted, in either direction,
        is a justified pair. */
    lemma ConversionsJustified(x: seq<real>, y: seq<T>)
      requires Valid()
      ensures ConvertedBy(toTypeMap, x, y) ==> forall k | 0 <= k < |x| :: Justified(y[k], x[k])
      ensures ConvertedTo(toRealMap, y, x) ==> forall k | 0 <= k < |x| :: Justified(y[k], x[k])
    {
    }

    constructor(toRealRule: T -> Option<real>, toTypeRule: real -> Option<T>, searchBound: int)
      ensures this.toRealRule == toRealRule && this.toTypeRule == toTypeRule
      ensures this.searchBound == searchBound
      ensures toRealMap == map[] && toTypeMap == map[]
      ensures Valid()
    {
      this.toRealRule := toRealRule;
      this.toTypeRule := toTypeRule;
      this.searchBound := searchBound;
      toRealMap := map[];
      toTypeMap := map[];
    }

    /** The checking constructor: a null rule or a missing class is rejected. */
    static method Create(toRealRule: Option<T -> Option<real>>, toTypeRule: Option<real -> Option<T>>,
                         classGiven: bool, searchBound: int)
      returns (r: Result<TypeWrapper<T>>)
      ensures r.Err? <==> toRealRule.None? || toTypeRule.None? || !classGiven
      ensures r.Err? ==> r.error == IllegalArgument
      ensures r.Ok? ==>
        && fresh(r.value) && r.value.Valid()
        && r.value.toRealMap == map[] && r.value.toTypeMap == map[]
        && r.value.toRealRule == toRealRule.value && r.value.toTypeRule == toTypeRule.value
        && r.value.searchBound == searchBound
    {
      if toRealRule.None? || toTypeRule.None? || !classGiven {
        return Err(IllegalArgument);
      }
      var w := new TypeWrapper(toRealRule.value, toTypeRule.value, searchBound);
      r := Ok(w);
    }

    /** `calculateTypeInterpretation`: the probe loop, and on success the pair
        (r, found value) stored in both maps. */
    method CalculateTypeInterpretation(r: real) returns (found: Option<T>)
      requires Valid()
      modifies this
      ensures Valid()
      ensures found == Search(r)
      ensures found.None? ==> toRealMap == old(toRealMap) && toTypeMap == old(toTypeMap)
      ensures found.Some? ==>
        toTypeMap == old(toTypeMap)[r := found.value] && toRealMap == old(toRealMap)[found.value := r]
    {
      found := None;
      var i := 1;
      ghost var n: nat := 0;
      while found.None? && i < searchBound
        invariant i == ProbeIndex(n)
        invariant found.None? ==> FirstInterpretation(toTypeRule, r, searchBound, n) == Search(r)
        invariant found.Some? ==> found == Search(r)
        invariant toRealMap == old(toRealMap) && toTypeMap == old(toTypeMap)
        decreases if n <= searchBound + 1 then searchBound + 2 - n else 0, n % 2
      {
        found := toTypeRule(r + Configurations.DEFAULT_ACCURACY * (i as real));
        ProbeIndexFollowsLoop(n);
        i := NextIndex(i);
        n := n + 1;
      }
      if found.Some? {
        StorePair(toRealMap, toTypeMap, found.value, r);
        toTypeMap := toTypeMap[r := found.value];
        toRealMap := toRealMap[found.value := r];
      }
    }

    /** `convert(Real)`: the remembered value, else the search; a failed
        search is a `Runtime` error. */
    method ConvertReal(x: real) returns (r: Result<T>)
      requires Valid()
      modifies this
      ensures Valid()
      ensures r.Ok? ==> Justified(r.value, x) && x in toTypeMap && toTypeMap[x] == r.value
      ensures r.Err? ==> Search(x).None?
      ensures Extends(toTypeMap, old(toTypeMap))
      ensures x in old(toTypeMap) ==>
        r == Ok(old(toTypeMap)[x]) && toRealMap == old(toRealMap) && toTypeMap == old(toTypeMap)
      ensures x !in old(toTypeMap) && Search(x).None? ==>
        r == Err(Runtime) && toRealMap == old(toRealMap) && toTypeMap == old(toTypeMap)
      ensures x !in old(toTypeMap) && Search(x).Some? ==>
        && r == Ok(Search(x).value)
        && toTypeMap == old(toTypeMap)[x := r.value] && toRealMap == old(toRealMap)[r.value := x]
    {
      if x in toTypeMap {
        return Ok(toTypeMap[x]);
      }
      var found := CalculateTypeInterpretation(x);
      if found.None? {
        return Err(Runtime);
      }
      r := Ok(found.value);
    }

    /** `convert(T)`: the remembered value, else the rule, whose answer is
        stored in both maps. A `null` answer cannot be unboxed into a `Real`,
        so it is a `Runtime` error and nothing is stored. */
    method ConvertType(t: T) returns (r: Result<real>)
      requires Valid()
      modifies this
      ensures Valid()
      ensures r.Ok? ==> Justified(t, r.value) && t in toRealMap && toRealMap[t] == r.value
      ensures r.Err? ==> toRealRule(t).None?
      ensures Extends(toRealMap, old(toRealMap))
      ensures t in old(toRealMap) ==>
        r == Ok(old(toRealMap)[t]) && toRealMap == old(toRealMap) && toTypeMap == old(toTypeMap)
      ensures t !in old(toRealMap) && toRealRule(t).None? ==>
        r == Err(Runtime) && toRealMap == old(toRealMap) && toTypeMap == old(toTypeMap)
      ensures t !in old(toRealMap) && toRealRule(t).Some? ==>
        && r == Ok(toRealRule(t).value)
        && toRealMap == old(toRealMap)[t := r.value] && toTypeMap == old(toTypeMap)[r.value := t]
    {
      if t in toRealMap {
        return Ok(toRealMap[t]);
      }
      var x := toRealRule(t);
      if x.None? {
        return Err(Runtime);
      }
      StorePair(toRealMap, toTypeMap, t, x.value);
      toRealMap := toRealMap[t := x.value];
      toTypeMap := toTypeMap[x.value := t];
      r := Ok(x.value);
    }

    /** `convertPoint(Vector)`: every coordinate converted in order; a null
        point is rejected. Converting a coordinate stores nothing under another
        real key, so at the end every coordinate maps to its converted value. */
    method ConvertRealPoint(point: Option<seq<real>>) returns (r: Result<seq<T>>)
      requires Valid()
      modifies this
      ensures Valid()
      ensures point.None? ==> r == Err(IllegalArgument)
      ensures point.Some? && r.Err? ==> r.error == Runtime
      ensures r.Ok? ==>
        point.Some? && ConvertedBy(toTypeMap, point.value, r.value)
      ensures point.Some? && (forall k | 0 <= k < |point.value| :: Search(point.value[k]).Some?) ==> r.Ok?
      ensures Extends(toTypeMap, old(toTypeMap))
    {
      if point.None? {
        return Err(IllegalArgument);
      }
      var p := point.value;
      var a: seq<T> := [];
      var k := 0;
      while k < |p|
        invariant Valid()
        invariant 0 <= k <= |p| && |a| == k
        invariant ConvertedBy(toTypeMap, p[..k], a)
        invariant Extends(toTypeMap, old(toTypeMap))
      {
        ghost var before := toTypeMap;
        var c := ConvertReal(p[k]);
        if c.Err? {
          return Err(Runtime);
        }
        ConvertedByExtends(before, toTypeMap, p[..k], a);
        ConvertedByAppend(toTypeMap, p[..k], a, p[k], c.value);
        ExtendsTransitive(old(toTypeMap), before, toTypeMap);
        assert p[..k + 1] == p[..k] + [p[k]];
        a := a + [c.value];
        k := k + 1;
      }
      assert p[..k] == p;
      r := Ok(a);
    }

    /** `convertPoint(T[])`: every element converted in order; a null point is
        rejected. */
    method ConvertTypePoint(point: Option<seq<T>>) returns (r: Result<seq<real>>)
      requires Valid()
      modifies this
      ensures Valid()
      ensures point.None? ==> r == Err(IllegalArgument)
      ensures point.Some? && r.Err? ==> r.error == Runtime
      ensures r.Ok? ==> point.Some? && ConvertedTo(toRealMap, point.value, r.value)
      ensures point.Some? && (forall k | 0 <= k < |point.value| :: toRealRule(point.value[k]).Some?) ==> r.Ok?
      ensures Extends(toRealMap, old(toRealMap))
    {
      if point.None? {
        return Err(IllegalArgument);
      }
      var p := point.value;
      var a: seq<real> := [];
      var k := 0;
      while k < |p|
        invariant Valid()
        invariant 0 <= k <= |p| && |a| == k
        invariant ConvertedTo(toRealMap, p[..k], a)
        invariant Extends(toRealMap, old(toRealMap))
      {
        ghost var before := toRealMap;
        var c := ConvertType(p[k]);
        if c.Err? {
          return Err(Runtime);
        }
        ConvertedToExtends(before, toRealMap, p[..k], a);
        ConvertedToAppend(toRealMap, p[..k], a, p[k], c.value);
        ExtendsTransitive(old(toRealMap), before, toRealMap);
        assert p[..k + 1] == p[..k] + [p[k]];
        a := a + [c.value];
        k := k + 1;
      }
      assert p[..k] == p;
      r := Ok(a);
    }
  }
}
