/** `Optimizator`: the session a caller works with. It wraps the caller's
    element type `T` with a `TypeWrapper`, builds a cost function and an
    optimisation procedure for each call of `optimize`, runs the procedure
    from every start point, and keeps the latest `Result` per configuration
    in its `History`. */
module Optimizers {
  import opened Wrappers
  import opened MathHelp
  import opened Configurations
  import opened Sorting
  import opened TypeConversion
  import opened CostFunctions
  import opened OptimizationProcedures
  import opened OptimizationResults

  /** Every `Config` constructor checks its range and accuracy. */
  type ValidConfig = c: Config<Algorithm> | c.Valid()
    witness Config(DEFAULT_ACCURACY, [DEFAULT_LOWER, DEFAULT_UPPER], None)

  /** A `Config` object. `Config` does not override `equals`, so the history
      tells two configurations apart by identity. */
  class ConfigRef {
    const config: ValidConfig

    constructor(config: ValidConfig)
      ensures this.config == config
    {
      this.config := config;
    }
  }

  // The history's `HashMap`, as an association list in insertion order.

  /** No key occurs twice. */
  ghost predicate DistinctKeys<K, V>(entries: seq<(K, V)>) {
    forall i, j | 0 <= i < j < |entries| :: entries[i].0 != entries[j].0
  }

  /** `Map.get`. */
  function MapGet<K(==), V>(entries: seq<(K, V)>, key: K): (r: Option<V>)
    ensures r.None? <==> forall i | 0 <= i < |entries| :: entries[i].0 != key
    ensures r.Some? ==> (key, r.value) in entries
  {
    if |entries| == 0 then None
    else if entries[0].0 == key then Some(entries[0].1)
    else
      var r := MapGet(entries[1..], key);
      assert forall i | 1 <= i < |entries| :: entries[i] == entries[1..][i - 1];
      r
  }

  /** `Map.put`: the entry of a present key gets the new value in place; a
      new key goes at the end. */
  function MapPut<K(==), V>(entries: seq<(K, V)>, key: K, value: V): (r: seq<(K, V)>)
    ensures |r| == |entries| || |r| == |entries| + 1
  {
    if |entries| == 0 then [(key, value)]
    else if entries[0].0 == key then [(key, value)] + entries[1..]
    else [entries[0]] + MapPut(entries[1..], key, value)
  }

  /** After a put, the key maps to the new value and every other key to
      what it mapped to before. */
  lemma {:induction false} MapPutGet<K, V>(entries: seq<(K, V)>, key: K, value: V, other: K)
    ensures MapGet(MapPut(entries, key, value), other) == if other == key then Some(value) else MapGet(entries, other)
  {
    if |entries| != 0 && entries[0].0 != key {
      MapPutGet(entries[1..], key, value, other);
      assert MapPut(entries, key, value)[1..] == MapPut(entries[1..], key, value);
    }
  }

  /** A put adds an entry exactly when the key was absent, and keeps the
      keys distinct. */
  lemma {:induction false} MapPutKeys<K, V>(entries: seq<(K, V)>, key: K, value: V)
    requires DistinctKeys(entries)
    ensures DistinctKeys(MapPut(entries, key, value))
    ensures |MapPut(entries, key, value)| == if MapGet(entries, key).None? then |entries| + 1 else |entries|
    ensures forall i | 0 <= i < |MapPut(entries, key, value)| ::
      MapPut(entries, key, value)[i] == (key, value) || MapPut(entries, key, value)[i] in entries
  {
    if |entries| == 0 {
    } else if entries[0].0 == key {
      var r := MapPut(entries, key, value);
      forall i, j | 0 <= i < j < |r|
        ensures r[i].0 != r[j].0
      {
        assert r[j] == entries[j];
        if i != 0 {
          assert r[i] == entries[i];
        }
      }
      forall i | 0 <= i < |r|
        ensures r[i] == (key, value) || r[i] in entries
      {
        if i != 0 {
          assert r[i] == entries[i];
        }
      }
    } else {
      var rest := entries[1..];
      assert DistinctKeys(rest) by {
        forall i, j | 0 <= i < j < |rest|
          ensures rest[i].0 != rest[j].0
        {
          assert rest[i] == entries[i + 1] && rest[j] == entries[j + 1];
        }
      }
      MapPutKeys(rest, key, value);
      var t := MapPut(rest, key, value);
      var r := MapPut(entries, key, value);
      assert r == [entries[0]] + t;
      forall i | 0 <= i < |r|
        ensures r[i] == (key, value) || r[i] in entries
      {
        if i != 0 {
          assert r[i] == t[i - 1];
          assert t[i - 1] == (key, value) || t[i - 1] in rest;
        }
      }
      forall i, j | 0 <= i < j < |r|
        ensures r[i].0 != r[j].0
      {
        assert r[j] == t[j - 1];
        if i == 0 {
          assert t[j - 1] == (key, value) || t[j - 1] in rest;
          if t[j - 1] in rest {
            var m :| 0 <= m < |rest| && rest[m] == t[j - 1];
            assert entries[m + 1] == rest[m];
          }
        } else {
          assert r[i] == t[i - 1];
        }
      }
    }
  }

  /** The values of the entries, in order. */
  function Values<K, V>(entries: seq<(K, V)>): (r: seq<V>)
    ensures |r| == |entries| && forall i | 0 <= i < |entries| :: r[i] == entries[i].1
  {
    seq(|entries|, i requires 0 <= i < |entries| => entries[i].1)
  }

  /** The History comparator on the first shots of two Results' sorted lists;
      `None` stands for a Result with no shots, which comes first. */
  function CompareBest<T>(a: Option<Shot<T>>, b: Option<Shot<T>>, byFinalDecision: bool, byTime: bool): (c: int)
    ensures a.None? && b.Some? ==> c < 0
    ensures a.Some? && b.None? ==> c > 0
    ensures c == 0 <==>
      || (a.None? && b.None?)
      || (&& a.Some? && b.Some?
          && (!byFinalDecision || a.value.finalValue == b.value.finalValue)
          && (!byTime || a.value.time == b.value.time))
  {
    if a.None? && b.Some? then -1
    else if b.None? && a.Some? then 1
    else if a.Some? && b.Some? then CompareShots(a.value, b.value, byFinalDecision, byTime)
    else 0
  }

  /** The comparator on (position, first shot) pairs the history sorts. */
  function BestOrder<T(!new)>(byFinalDecision: bool, byTime: bool)
    : ((nat, Option<Shot<T>>), (nat, Option<Shot<T>>)) -> int
  {
    (p: (nat, Option<Shot<T>>), q: (nat, Option<Shot<T>>)) => CompareBest(p.1, q.1, byFinalDecision, byTime)
  }

  /** The History comparator meets the contract `Collections.sort` relies on. */
  lemma BestOrderIsComparator<T(!new)>(byFinalDecision: bool, byTime: bool)
    ensures IsComparator(BestOrder<T>(byFinalDecision, byTime))
  {
    var cmp := BestOrder<T>(byFinalDecision, byTime);
    ShotOrderIsComparator<T>(byFinalDecision, byTime);
    var shots := ShotOrder<T>(byFinalDecision, byTime);
    forall p, q
      ensures cmp(p, q) == -cmp(q, p)
    {
      if p.1.Some? && q.1.Some? {
        assert shots(p.1.value, q.1.value) == -shots(q.1.value, p.1.value);
      }
    }
    forall p, q, s | cmp(p, q) <= 0 && cmp(q, s) <= 0
      ensures cmp(p, s) <= 0
    {
      if p.1.Some? && q.1.Some? && s.1.Some? {
        assert shots(p.1.value, q.1.value) <= 0 && shots(q.1.value, s.1.value) <= 0;
        assert shots(p.1.value, s.1.value) <= 0;
      }
    }
  }

  /** Removing an element from both sides of a permutation leaves a permutation. */
  lemma RemoveMatching<X>(s: seq<X>, t: seq<X>, j: int)
    requires |s| != 0 && 0 <= j < |t| && t[j] == s[0] && multiset(s) == multiset(t)
    ensures multiset(s[1..]) == multiset(t[..j] + t[j + 1..])
  {
    assert s == [s[0]] + s[1..];
    assert multiset(s) == multiset{s[0]} + multiset(s[1..]);
    assert t == t[..j] + [t[j]] + t[j + 1..];
    assert multiset(t) == multiset(t[..j]) + multiset{t[j]} + multiset(t[j + 1..]);
    assert multiset(t[..j] + t[j + 1..]) == multiset(t[..j]) + multiset(t[j + 1..]);
    assert multiset(s[1..]) == multiset(s) - multiset{s[0]};
    assert multiset(t) - multiset{t[j]} == multiset(t[..j]) + multiset(t[j + 1..]);
  }

  /** Positions below n. */
  predicate InRange<B>(ps: seq<(nat, B)>, n: nat) {
    forall k | 0 <= k < |ps| :: ps[k].0 < n
  }

  /** The values at the positions the pairs name, in the pairs' order. */
  function Pick<V, B>(vs: seq<V>, ps: seq<(nat, B)>): (r: seq<V>)
    requires InRange(ps, |vs|)
    ensures |r| == |ps| && forall k | 0 <= k < |ps| :: r[k] == vs[ps[k].0]
  {
    seq(|ps|, k requires 0 <= k < |ps| => vs[ps[k].0])
  }

  /** A rearrangement of pairs in range is in range. */
  lemma InRangePermutation<B>(s: seq<(nat, B)>, t: seq<(nat, B)>, n: nat)
    requires InRange(s, n) && multiset(s) == multiset(t)
    ensures InRange(t, n)
  {
    forall k | 0 <= k < |t|
      ensures t[k].0 < n
    {
      assert t[k] in multiset(t);
      assert t[k] in s;
    }
  }

  /** Picking along a sequence picks its first element, then the rest. */
  lemma PickFirst<V, B>(vs: seq<V>, s: seq<(nat, B)>)
    requires InRange(s, |vs|) && |s| != 0
    ensures InRange(s[1..], |vs|)
    ensures Pick(vs, s) == [vs[s[0].0]] + Pick(vs, s[1..])
  {
    assert forall k | 0 <= k < |s| - 1 :: s[1..][k] == s[k + 1];
  }

  /** Picking along a sequence picks its j-th element and what picking along
      the rest picks. */
  lemma PickRemove<V, B>(vs: seq<V>, t: seq<(nat, B)>, j: int)
    requires InRange(t, |vs|) && 0 <= j < |t|
    ensures InRange(t[..j] + t[j + 1..], |vs|)
    ensures multiset(Pick(vs, t)) == multiset{vs[t[j].0]} + multiset(Pick(vs, t[..j] + t[j + 1..]))
  {
    var t' := t[..j] + t[j + 1..];
    assert forall k | 0 <= k < |t'| :: t'[k] == if k < j then t[k] else t[k + 1];
    var a, b := Pick(vs, t[..j]), Pick(vs, t[j + 1..]);
    assert Pick(vs, t) == a + [vs[t[j].0]] + b;
    assert Pick(vs, t') == a + b;
  }

  /** Rearranging the pairs rearranges what they pick. */
  lemma {:induction false} PickPermutation<V, B>(vs: seq<V>, s: seq<(nat, B)>, t: seq<(nat, B)>)
    requires InRange(s, |vs|) && multiset(s) == multiset(t)
    ensures InRange(t, |vs|)
    ensures multiset(Pick(vs, s)) == multiset(Pick(vs, t))
  {
    InRangePermutation(s, t, |vs|);
    if |s| == 0 {
      assert |t| == |multiset(t)| == 0;
    } else {
      assert s[0] in multiset(t);
      var j :| 0 <= j < |t| && t[j] == s[0];
      RemoveMatching(s, t, j);
      PickFirst(vs, s);
      PickRemove(vs, t, j);
      PickPermutation(vs, s[1..], t[..j] + t[j + 1..]);
    }
  }

  /** Each element paired with its position. */
  function Positioned<B>(bs: seq<B>): (r: seq<(nat, B)>)
    ensures |r| == |bs| && forall i | 0 <= i < |bs| :: r[i] == (i, bs[i])
  {
    seq(|bs|, i requires 0 <= i < |bs| => (i, bs[i]))
  }

  /** A permutation of the positioned values carries, at each place, a
      position in range and the value at that position. */
  lemma PositionedMembers<B>(bs: seq<B>, t: seq<(nat, B)>)
    requires multiset(t) == multiset(Positioned(bs))
    ensures forall k | 0 <= k < |t| :: t[k].0 < |bs| && t[k].1 == bs[t[k].0]
  {
    forall k | 0 <= k < |t|
      ensures t[k].0 < |bs| && t[k].1 == bs[t[k].0]
    {
      assert t[k] in multiset(Positioned(bs));
    }
  }

  /** Sorting values with their positions under a comparator gives a sorted
      order of positions that picks every value exactly as often as it occurs. */
  lemma SortedPositionsBy<V, B(!new)>(vs: seq<V>, bs: seq<B>, cmp: ((nat, B), (nat, B)) -> int)
    requires |vs| == |bs| && IsComparator(cmp)
    ensures var sorted := SortBy(Positioned(bs), cmp);
      && (forall k | 0 <= k < |sorted| :: sorted[k].0 < |vs| && sorted[k].1 == bs[sorted[k].0])
      && SortedBy(sorted, cmp)
      && multiset(Pick(vs, sorted)) == multiset(vs)
  {
    var pairs := Positioned(bs);
    SortBySorted(pairs, cmp);
    var sorted := SortBy(pairs, cmp);
    PositionedMembers(bs, sorted);
    PickPermutation(vs, pairs, sorted);
    assert Pick(vs, pairs) == vs;
  }

  /** Sorting the first shots with their positions under the History
      comparator. */
  lemma SortedPositions<T(!new), V>(vs: seq<V>, bests: seq<Option<Shot<T>>>, byFinalDecision: bool, byTime: bool)
    requires |vs| == |bests|
    ensures var sorted := SortBy(Positioned(bests), BestOrder<T>(byFinalDecision, byTime));
      && (forall k | 0 <= k < |sorted| :: sorted[k].0 < |vs| && sorted[k].1 == bests[sorted[k].0])
      && SortedBy(sorted, BestOrder<T>(byFinalDecision, byTime))
      && multiset(Pick(vs, sorted)) == multiset(vs)
  {
    BestOrderIsComparator<T>(byFinalDecision, byTime);
    SortedPositionsBy(vs, bests, BestOrder<T>(byFinalDecision, byTime));
  }

  /** The first shot of a Result's remembered sorted list for the flags, if any. */
  function BestOf<T(==,!new)>(res: Results<T>, key: (bool, bool)): Option<Shot<T>>
    reads res
  {
    if key in res.sortedResults && |res.sortedResults[key]| != 0 then Some(res.sortedResults[key][0]) else None
  }

  /** The Result remembers its sorted list for the key, whose first shot is best. */
  ghost predicate Asked<T(!new)>(res: Results<T>, key: (bool, bool), best: Option<Shot<T>>)
    reads res
  {
    key in res.sortedResults && best == BestOf(res, key)
  }

  /** The shots each Result holds. */
  ghost function StartsOf<T(!new)>(rs: seq<Results<T>>): (r: seq<seq<Shot<T>>>)
    reads rs
    ensures |r| == |rs| && forall j | 0 <= j < |rs| :: r[j] == rs[j].allStartsResults
  {
    seq(|rs|, j requires 0 <= j < |rs| reads rs => rs[j].allStartsResults)
  }

  /** The history and its Results are none of an algorithm's objects. */
  lemma HistoryApart<T(!new)>(h: History<T>, a: Algorithm)
    ensures (h as object) !in Parts(a)
    ensures forall o | o in h.Objects() :: o !in Parts(a)
  {
  }

  /** A Result that is valid and still holds the given shots. */
  ghost predicate Kept<T(!new)>(res: Results<T>, starts: seq<Shot<T>>)
    reads res
  {
    res.Valid() && res.allStartsResults == starts
  }

  /** `History`: the latest Result of each configuration. */
  class History<T(==,!new)> {
    var results: seq<(ConfigRef, Results<T>)>

    /** The Results the history holds. */
    function Objects(): set<object>
      reads this
    {
      set i | 0 <= i < |results| :: results[i].1
    }

    ghost predicate Valid()
      reads this, Objects()
    {
      && DistinctKeys(results)
      && forall i | 0 <= i < |results| :: results[i].1.Valid()
    }

    constructor()
      ensures results == [] && Valid()
    {
      results := [];
    }

    /** `results.put(config, result)`. */
    method Record(config: ConfigRef, result: Results<T>)
      requires Valid() && result.Valid()
      modifies this
      ensures Valid() && results == MapPut(old(results), config, result)
    {
      MapPutKeys(results, config, result);
      var earlier := results;
      results := MapPut(results, config, result);
      forall i | 0 <= i < |results|
        ensures results[i].1.Valid()
      {
        if results[i] != (config, result) {
          var m :| 0 <= m < |earlier| && earlier[m] == results[i];
        }
      }
    }

    /** The first shot of a Result's sorted list for the flags, which the
        Result then remembers. */
    static method FirstShot(res: Results<T>, byFinalDecision: bool, byTime: bool) returns (best: Option<Shot<T>>)
      requires res.Valid()
      modifies res
      ensures res.Valid() && res.allStartsResults == old(res.allStartsResults)
      ensures (byFinalDecision, byTime) in old(res.sortedResults) ==> res.sortedResults == old(res.sortedResults)
      ensures (byFinalDecision, byTime) in res.sortedResults && best == BestOf(res, (byFinalDecision, byTime))
    {
      var shots := res.GetSortedResults(byFinalDecision, byTime);
      best := if |shots| == 0 then None else Some(shots[0]);
    }

    /** Each Result's own sorted list for the flags, asked for in order,
        and its first shot. */
    static method FirstShots(rs: seq<Results<T>>, byFinalDecision: bool, byTime: bool)
      returns (bests: seq<Option<Shot<T>>>)
      requires forall j | 0 <= j < |rs| :: rs[j].Valid()
      modifies rs
      ensures |bests| == |rs|
      ensures forall j | 0 <= j < |rs| :: Kept(rs[j], old(rs[j].allStartsResults))
      ensures forall j | 0 <= j < |rs| :: Asked(rs[j], (byFinalDecision, byTime), bests[j])
    {
      var key := (byFinalDecision, byTime);
      ghost var starts := StartsOf(rs);
      bests := [];
      var k := 0;
      while k < |rs|
        invariant 0 <= k <= |rs| && |bests| == k
        invariant forall j | 0 <= j < |rs| :: Kept(rs[j], starts[j])
        invariant forall j | 0 <= j < k :: Asked(rs[j], key, bests[j])
      {
        var res := rs[k];
        label Before:
        var best := FirstShot(res, byFinalDecision, byTime);
        forall j | 0 <= j < |rs|
          ensures Kept(rs[j], starts[j])
          ensures j < k ==> Asked(rs[j], key, bests[j])
        {
          if rs[j] != res {
            assert rs[j].sortedResults == old@Before(rs[j].sortedResults);
            assert Kept(rs[j], starts[j]) == old@Before(Kept(rs[j], starts[j]));
          }
        }
        assert Asked(rs[k], key, best);
        ghost var earlier := bests;
        bests := bests + [best];
        forall j | 0 <= j < k + 1
          ensures Asked(rs[j], key, bests[j])
        {
          if j < k {
            assert bests[j] == earlier[j];
          }
        }
        k := k + 1;
      }
    }

    /** `getSortedResults`: the Results sorted by their first shots under
        the History comparator. The comparator asks both Results it compares
        for their own sorted lists (which they then remember); with fewer
        than two Results the sort compares nothing and nobody is asked. */
    method GetSortedResults(byFinalDecision: bool, byTime: bool) returns (r: seq<Results<T>>)
      requires Valid()
      modifies Objects()
      ensures Valid()
      ensures multiset(r) == multiset(Values(results))
      ensures 2 <= |results| ==> forall i | 0 <= i < |r| :: (byFinalDecision, byTime) in r[i].sortedResults
      ensures |results| < 2 ==> r == Values(results)
      ensures |results| < 2 ==>
        forall i | 0 <= i < |results| :: results[i].1.sortedResults == old(results[i].1.sortedResults)
      ensures forall i, j | 0 <= i < j < |r| ::
        CompareBest(BestOf(r[i], (byFinalDecision, byTime)), BestOf(r[j], (byFinalDecision, byTime)),
                    byFinalDecision, byTime) <= 0
      ensures forall i | 0 <= i < |results| ::
        results[i].1.allStartsResults == old(results[i].1.allStartsResults)
    {
      var vs := Values(results);
      if |vs| < 2 {
        r := vs;
        return;
      }
      var bests := FirstShots(vs, byFinalDecision, byTime);
      SortedPositions(vs, bests, byFinalDecision, byTime);
      var sorted := SortBy(Positioned(bests), BestOrder<T>(byFinalDecision, byTime));
      r := Pick(vs, sorted);
      forall i, j | 0 <= i < j < |r|
        ensures CompareBest(BestOf(r[i], (byFinalDecision, byTime)), BestOf(r[j], (byFinalDecision, byTime)),
                            byFinalDecision, byTime) <= 0
      {
        assert BestOrder<T>(byFinalDecision, byTime)(sorted[i], sorted[j]) <= 0;
      }
    }
  }

  /** `createCostFunction`'s rule: the point converted back coordinate by
      coordinate by the wrapper's search, then the caller's cost function;
      a coordinate the search cannot convert leaves the point undefined. */
  function ConvertedCost<T>(w: TypeWrapper<T>, cost: seq<T> -> Option<real>, v: Vector): (r: Option<real>)
    ensures r.Some? ==> forall j | 0 <= j < |v| :: w.Search(v[j]).Some?
  {
    if forall j | 0 <= j < |v| :: w.Search(v[j]).Some? then
      cost(seq(|v|, j requires 0 <= j < |v| => w.Search(v[j]).value))
    else None
  }

  /** Where the search converts every coordinate of v to the matching entry
      of y, the rule gives the caller's cost of y; where it fails at some
      coordinate, the rule gives nothing. */
  lemma ConvertedCostOfSearched<T>(w: TypeWrapper<T>, cost: seq<T> -> Option<real>, v: Vector, y: seq<T>)
    ensures |y| == |v| && (forall j | 0 <= j < |v| :: w.Search(v[j]) == Some(y[j])) ==>
      ConvertedCost(w, cost, v) == cost(y)
    ensures (exists j | 0 <= j < |v| :: w.Search(v[j]).None?) ==> ConvertedCost(w, cost, v).None?
  {
    if |y| == |v| && forall j | 0 <= j < |v| :: w.Search(v[j]) == Some(y[j]) {
      var searched := seq(|v|, j requires 0 <= j < |v| => w.Search(v[j]).value);
      assert searched == y;
    }
  }

  class Optimizator<T(==,!new)> {
    var dimension: int
    const typeConverter: TypeWrapper<T>
    var configurations: ConfigRef
    const history: History<T>

    ghost predicate Valid()
      reads this, typeConverter, history, history.Objects()
    {
      typeConverter.Valid() && history.Valid()
    }

    constructor(dimension: int, typeConverter: TypeWrapper<T>, configurations: ConfigRef)
      requires typeConverter.Valid()
      ensures this.dimension == dimension && this.typeConverter == typeConverter
      ensures this.configurations == configurations
      ensures fresh(history) && history.results == []
      ensures Valid()
    {
      this.dimension := dimension;
      this.typeConverter := typeConverter;
      this.configurations := configurations;
      history := new History();
    }

    /** The checking constructor: a null rule, class or configuration is
        rejected. */
    static method Create(dimension: int, toNumber: Option<T -> Option<real>>, toType: Option<real -> Option<T>>,
                         classGiven: bool, configurations: Option<ConfigRef>, searchBound: int)
      returns (r: Result<Optimizator<T>>)
      ensures r.Err? <==> toNumber.None? || toType.None? || !classGiven || configurations.None?
      ensures r.Err? ==> r.error == IllegalArgument
      ensures r.Ok? ==>
        && fresh(r.value) && fresh(r.value.typeConverter) && fresh(r.value.history) && r.value.Valid()
        && r.value.dimension == dimension && r.value.configurations == configurations.value
        && r.value.history.results == []
        && r.value.typeConverter.toRealRule == toNumber.value && r.value.typeConverter.toTypeRule == toType.value
        && r.value.typeConverter.toRealMap == map[] && r.value.typeConverter.toTypeMap == map[]
    {
      if toNumber.None? || toType.None? || !classGiven {
        return Err(IllegalArgument);
      }
      var w := TypeWrapper.Create(toNumber, toType, classGiven, searchBound);
      if configurations.None? {
        return Err(IllegalArgument);
      }
      var o := new Optimizator(dimension, w.value, configurations.value);
      r := Ok(o);
    }

    /** `changeCongigurations`: a null configuration is rejected and changes nothing. */
    method ChangeConfigurations(newConfig: Option<ConfigRef>) returns (r: Result<()>)
      modifies this
      ensures newConfig.None? <==> r.Err?
      ensures r.Err? ==> r.error == IllegalArgument && configurations == old(configurations)
      ensures r.Ok? ==> configurations == newConfig.value
      ensures dimension == old(dimension)
    {
      if newConfig.None? {
        return Err(IllegalArgument);
      }
      configurations := newConfig.value;
      r := Ok(());
    }

    function GetDimension(): (d: int)
      reads this
      ensures d == dimension
    {
      dimension
    }

    method SetDimension(dimension: int)
      modifies this
      ensures this.dimension == dimension && configurations == old(configurations)
    {
      this.dimension := dimension;
    }

    /** One pass of the start-point loop: the point is checked, converted,
        optimised from, and recorded as a new shot. */
    method RunStart(procedure: OptimizationProcedure, results: Results<T>, cost: seq<T> -> Option<real>,
                    startPoint: seq<T>, polinomMin: (real, real) -> real, fuel: nat, time: real)
      returns (r: Result<()>)
      requires procedure.Valid() && IsSqrt(procedure.costFunction.sqrt)
      requires results.Valid() && typeConverter.Valid()
      requires results.optimizationProcedure == Some(procedure) && results.converter == typeConverter
      modifies procedure, procedure.costFunction, Parts(procedure.Alg()), results, typeConverter
      ensures procedure.Valid() && SameParts(procedure.Alg())
      ensures results.Valid() && typeConverter.Valid()
      ensures results.optimizationProcedure == old(results.optimizationProcedure)
      ensures r.Ok? ==> |startPoint| == dimension && cost(startPoint).Some?
      ensures (|startPoint| != dimension || cost(startPoint).None?) ==> r == Err(IllegalArgument)
      ensures r.Ok? ==>
        && |results.allStartsResults| == |old(results.allStartsResults)| + 1
        && results.allStartsResults[..|old(results.allStartsResults)|] == old(results.allStartsResults)
        && results.allStartsResults[|old(results.allStartsResults)|].time == time
    {
      if |startPoint| != dimension || cost(startPoint).None? {
        return Err(IllegalArgument);
      }
      var launched := Launch(procedure, startPoint, polinomMin, fuel);
      if launched.Err? {
        return Err(launched.error);
      }
      r := results.UpdateResults(time);
    }

    /** The start point in the algorithms' terms, and the run from it. */
    method Launch(procedure: OptimizationProcedure, startPoint: seq<T>, polinomMin: (real, real) -> real, fuel: nat)
      returns (r: Result<()>)
      requires procedure.Valid() && IsSqrt(procedure.costFunction.sqrt) && typeConverter.Valid()
      modifies procedure, procedure.costFunction, Parts(procedure.Alg()), typeConverter
      ensures procedure.Valid() && SameParts(procedure.Alg()) && typeConverter.Valid()
      ensures r.Ok? ==> exists x :: ConvertedTo(typeConverter.toRealMap, startPoint, x)
    {
      var converted := typeConverter.ConvertTypePoint(Some(startPoint));
      if converted.Err? {
        return Err(converted.error);
      }
      r := procedure.Start(converted.value, polinomMin, fuel);
    }

    /** The start-point loop of `optimize`: one run and one shot per start
        point, until the first failure. */
    method RunAll(procedure: OptimizationProcedure, results: Results<T>, cost: seq<T> -> Option<real>,
                  startPoints: seq<seq<T>>, polinomMin: (real, real) -> real, fuel: nat, timer: nat -> real)
      returns (r: Result<()>)
      requires procedure.Valid() && IsSqrt(procedure.costFunction.sqrt)
      requires results.Valid() && typeConverter.Valid()
      requires results.optimizationProcedure == Some(procedure) && results.converter == typeConverter
      requires results.allStartsResults == []
      modifies procedure, procedure.costFunction, Parts(procedure.Alg()), results, typeConverter
      ensures procedure.Valid() && results.Valid() && typeConverter.Valid()
      ensures results.optimizationProcedure == old(results.optimizationProcedure)
      ensures r.Ok? ==> forall k | 0 <= k < |startPoints| :: |startPoints[k]| == dimension && cost(startPoints[k]).Some?
      ensures r.Ok? ==>
        && |results.allStartsResults| == |startPoints|
        && forall k | 0 <= k < |startPoints| :: results.allStartsResults[k].time == timer(k)
    {
      var k := 0;
      while k < |startPoints|
        invariant 0 <= k <= |startPoints|
        invariant procedure.Valid() && SameParts(procedure.Alg())
        invariant results.Valid() && typeConverter.Valid()
        invariant results.optimizationProcedure == Some(procedure)
        invariant |results.allStartsResults| == k
        invariant forall j | 0 <= j < k :: |startPoints[j]| == dimension && cost(startPoints[j]).Some?
        invariant forall j | 0 <= j < k :: results.allStartsResults[j].time == timer(j)
      {
        ghost var before := results.allStartsResults;
        var run := RunStart(procedure, results, cost, startPoints[k], polinomMin, fuel, timer(k));
        if run.Err? {
          return Err(run.error);
        }
        assert forall j | 0 <= j < k :: results.allStartsResults[j] == before[j];
        k := k + 1;
      }
      r := Ok(());
    }

    /** The cost function `optimize` builds over the converted points, and
        the procedure for it under the present configuration. */
    method Prepare(cost: seq<T> -> Option<real>, sqrt: real -> real, derivative: Vector -> real)
      returns (r: Result<OptimizationProcedure>)
      requires IsSqrt(sqrt)
      requires configurations.config.algorithm.Some? ==> AlgorithmValid(configurations.config.algorithm.value)
      ensures configurations.config.algorithm.None? ==> r == Err(Runtime)
      ensures configurations.config.algorithm.Some? && configurations.config.algorithm.value.ByKaczmarz? ==>
        r == Err(IllegalArgument)
      ensures r.Ok? ==>
        && fresh(r.value) && fresh(r.value.costFunction) && r.value.Valid() && r.value.procedurePoints == []
        && r.value.config == configurations.config && IsSqrt(r.value.costFunction.sqrt)
    {
      var w := typeConverter;
      var f := new UndeterminateCostFunc(v => ConvertedCost(w, cost, v), dimension, configurations.config,
                                         sqrt, derivative);
      r := OptimizationProcedure.Create(Some(f), Some(configurations.config));
    }

    /** What `optimize` does with the procedure before it writes the
        history: a fresh Result and the start-point loop. */
    method Run(procedure: OptimizationProcedure, cost: seq<T> -> Option<real>, startPoints: seq<seq<T>>,
               polinomMin: (real, real) -> real, fuel: nat, timer: nat -> real)
      returns (r: Result<Results<T>>)
      requires procedure.Valid() && IsSqrt(procedure.costFunction.sqrt) && typeConverter.Valid()
      modifies procedure, procedure.costFunction, Parts(procedure.Alg()), typeConverter
      ensures typeConverter.Valid()
      ensures r.Ok? ==>
        && fresh(r.value) && r.value.Valid() && r.value.converter == typeConverter
        && r.value.algorithm == procedure.config.algorithm
      ensures r.Ok? ==> forall k | 0 <= k < |startPoints| :: |startPoints[k]| == dimension && cost(startPoints[k]).Some?
      ensures r.Ok? ==>
        && |r.value.allStartsResults| == |startPoints|
        && forall k | 0 <= k < |startPoints| :: r.value.allStartsResults[k].time == timer(k)
    {
      var created := Results.Create(Some(procedure), typeConverter);
      var results := created.value;
      var run := RunAll(procedure, results, cost, startPoints, polinomMin, fuel, timer);
      if run.Err? {
        return Err(run.error);
      }
      r := Ok(results);
    }

    /** `optimize`: a fresh cost function and procedure under the present
        configuration, one run and one shot per start point, and the Result
        stored in the history under the configuration. The first start point
        of the wrong length or outside the cost function's domain ends the
        call with an `IllegalArgument` error; `timer(k)` is the measured
        time of the k-th run. */
    method Optimize(cost: seq<T> -> Option<real>, startPoints: seq<seq<T>>, sqrt: real -> real,
                    derivative: Vector -> real, polinomMin: (real, real) -> real, fuel: nat, timer: nat -> real)
      returns (r: Result<Results<T>>)
      requires Valid() && IsSqrt(sqrt)
      requires configurations.config.algorithm.Some? ==> AlgorithmValid(configurations.config.algorithm.value)
      modifies history, typeConverter
      modifies if configurations.config.algorithm.Some? then Parts(configurations.config.algorithm.value) else {}
      ensures Valid()
      ensures configurations.config.algorithm.None? ==> r == Err(Runtime)
      ensures configurations.config.algorithm.Some? && configurations.config.algorithm.value.ByKaczmarz? ==>
        r == Err(IllegalArgument)
      ensures r.Err? ==> history.results == old(history.results)
      ensures r.Ok? ==>
        && fresh(r.value) && r.value.converter == typeConverter
        && r.value.algorithm == configurations.config.algorithm
        && history.results == MapPut(old(history.results), configurations, r.value)
      ensures r.Ok? ==> forall k | 0 <= k < |startPoints| :: |startPoints[k]| == dimension && cost(startPoints[k]).Some?
      ensures r.Ok? ==>
        && |r.value.allStartsResults| == |startPoints|
        && forall k | 0 <= k < |startPoints| :: r.value.allStartsResults[k].time == timer(k)
    {
      if configurations.config.algorithm.Some? {
        HistoryApart(history, configurations.config.algorithm.value);
      }
      var p := Prepare(cost, sqrt, derivative);
      if p.Err? {
        return Err(p.error);
      }
      var run := Run(p.value, cost, startPoints, polinomMin, fuel, timer);
      if run.Err? {
        return Err(run.error);
      }
      var results := run.value;
      history.Record(configurations, results);
      r := Ok(results);
    }
  }
}
