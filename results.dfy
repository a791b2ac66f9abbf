/** `Result`: the record of every start of one optimisation procedure. Each
    start leaves a `OneShot` (its start point, time, optimised decision and
    trajectory, all converted back to the caller's type), and the shots can
    be listed sorted by final cost and/or time; each sorted list is
    remembered per pair of flags. The Java class is called `Results` here so
    that it stays apart from the `Result` datatype of `Wrappers`. */
module OptimizationResults {
  import opened Wrappers
  import opened MathHelp
  import opened Sorting
  import opened TypeConversion
  import opened OptimizationProcedures

  /** `Double.compare` on reals, which are never NaN here. */
  function CompareReals(a: real, b: real): (c: int)
    ensures c == -1 || c == 0 || c == 1
    ensures c < 0 <==> a < b
    ensures c == 0 <==> a == b
  {
    if a < b then -1 else if a == b then 0 else 1
  }

  /** `OneShot`. The start point is a freshly made array whose identity keys
      the shot; `startKey` stands for that identity. The trajectory is a
      `LinkedHashMap` keyed by freshly made arrays, so it never merges two
      entries and is a list here. */
  datatype Shot<T> = Shot(startKey: nat, startPoint: seq<T>, time: real,
                          finalPoint: seq<T>, finalValue: real,
                          evolution: seq<(seq<T>, real)>)

  /** `getResultsComparator`: by final cost when `byFinalDecision`, then, on
      a tie, by time when `byTime`. */
  function CompareShots<T>(a: Shot<T>, b: Shot<T>, byFinalDecision: bool, byTime: bool): (c: int)
    ensures c == 0 <==> (!byFinalDecision || a.finalValue == b.finalValue) && (!byTime || a.time == b.time)
    ensures c < 0 <==>
      || (byFinalDecision && a.finalValue < b.finalValue)
      || ((!byFinalDecision || a.finalValue == b.finalValue) && byTime && a.time < b.time)
  {
    var c := if byFinalDecision then CompareReals(a.finalValue, b.finalValue) else 0;
    if c == 0 && byTime then CompareReals(a.time, b.time) else c
  }

  function ShotOrder<T(!new)>(byFinalDecision: bool, byTime: bool): (Shot<T>, Shot<T>) -> int {
    (a, b) => CompareShots(a, b, byFinalDecision, byTime)
  }

  /** The comparator meets the contract `Collections.sort` relies on. */
  lemma ShotOrderIsComparator<T(!new)>(byFinalDecision: bool, byTime: bool)
    ensures IsComparator(ShotOrder<T>(byFinalDecision, byTime))
  {
    var cmp := ShotOrder<T>(byFinalDecision, byTime);
    forall a, b, c | cmp(a, b) <= 0 && cmp(b, c) <= 0
      ensures cmp(a, c) <= 0
    {
      assert cmp(a, b) == CompareShots(a, b, byFinalDecision, byTime);
      assert cmp(b, c) == CompareShots(b, c, byFinalDecision, byTime);
      assert cmp(a, c) == CompareShots(a, c, byFinalDecision, byTime);
    }
  }

  /** Sorting the shots by the comparator gives a sorted permutation of them. */
  lemma SortedShots<T(!new)>(shots: seq<Shot<T>>, byFinalDecision: bool, byTime: bool)
    ensures SortedBy(SortBy(shots, ShotOrder(byFinalDecision, byTime)), ShotOrder(byFinalDecision, byTime))
    ensures multiset(SortBy(shots, ShotOrder(byFinalDecision, byTime))) == multiset(shots)
  {
    ShotOrderIsComparator<T>(byFinalDecision, byTime);
    SortBySorted(shots, ShotOrder(byFinalDecision, byTime));
  }

  /** The first shot sorted by (false, true) has the least time of all. */
  lemma FirstHasLeastTime<T(!new)>(s: seq<Shot<T>>)
    requires SortedBy(s, ShotOrder<T>(false, true)) && |s| != 0
    ensures forall e | e in s :: s[0].time <= e.time
  {
    ShotOrderIsComparator<T>(false, true);
    FirstIsLeast(s, ShotOrder<T>(false, true));
    forall e | e in s
      ensures s[0].time <= e.time
    {
      assert ShotOrder<T>(false, true)(s[0], e) <= 0;
    }
  }

  /** The shot whose start point has the given identity, if any. */
  function FindShot<T>(shots: seq<Shot<T>>, key: nat): (r: Option<Shot<T>>)
    ensures r.None? <==> forall i | 0 <= i < |shots| :: shots[i].startKey != key
    ensures r.Some? ==> r.value in shots && r.value.startKey == key
  {
    if |shots| == 0 then None
    else if shots[0].startKey == key then Some(shots[0])
    else FindShot(shots[1..], key)
  }

  /** `updateResults` turns an `IllegalArgumentException` into a
      `RuntimeException` and any other runtime exception into an
      `IllegalArgumentException`. */
  function Rethrown(e: Error): (r: Error)
    ensures r != e
  {
    if e == IllegalArgument then Runtime else IllegalArgument
  }

  /** s records the trajectory of p as it stands: its start point, its last
      point and cost, and every point with its cost, converted through m. */
  ghost predicate FromTrajectory<T>(s: Shot<T>, p: OptimizationProcedure, m: map<real, T>, time: real, key: nat)
    reads p
  {
    var pts := p.procedurePoints;
    && |pts| != 0
    && s.startKey == key && s.time == time
    && ConvertedBy(m, pts[0], s.startPoint)
    && ConvertedBy(m, pts[|pts| - 1], s.finalPoint)
    && p.costFunction.rule(pts[|pts| - 1]) == Some(s.finalValue)
    && Traced(m, p.costFunction.rule, pts, s.evolution)
  }

  /** A shot parsed from a trajectory: its evolution has one entry per point,
      opens with the start point and closes with the final point and value. */
  lemma ParsedShot<T>(s: Shot<T>, p: OptimizationProcedure, m: map<real, T>, time: real, key: nat)
    requires FromTrajectory(s, p, m, time, key)
    ensures |s.evolution| == |p.procedurePoints| != 0
    ensures s.evolution[0].0 == s.startPoint
    ensures s.evolution[|s.evolution| - 1] == (s.finalPoint, s.finalValue)
  {
    var pts := p.procedurePoints;
    var last := |pts| - 1;
    ConvertedByUnique(m, pts[0], s.evolution[0].0, s.startPoint);
    ConvertedByUnique(m, pts[last], s.evolution[last].0, s.finalPoint);
  }

  /** Each point converted through m, paired with its cost. */
  ghost predicate Traced<T>(m: map<real, T>, rule: Vector -> Option<real>, pts: seq<Vector>,
                            evolution: seq<(seq<T>, real)>) {
    |evolution| == |pts| &&
    forall k | 0 <= k < |pts| :: ConvertedBy(m, pts[k], evolution[k].0) && rule(pts[k]) == Some(evolution[k].1)
  }

  /** A trajectory traced through a map stays traced through any extension. */
  lemma TracedExtends<T>(m: map<real, T>, m': map<real, T>, rule: Vector -> Option<real>, pts: seq<Vector>,
                         evolution: seq<(seq<T>, real)>)
    requires Traced(m, rule, pts, evolution) && Extends(m', m)
    ensures Traced(m', rule, pts, evolution)
  {
    forall k | 0 <= k < |pts|
      ensures ConvertedBy(m', pts[k], evolution[k].0)
    {
      ConvertedByExtends(m, m', pts[k], evolution[k].0);
    }
  }

  /** A traced trajectory grows by one traced point. */
  lemma TracedAppend<T>(m: map<real, T>, rule: Vector -> Option<real>, pts: seq<Vector>,
                        evolution: seq<(seq<T>, real)>, x: Vector, y: seq<T>, v: real)
    requires Traced(m, rule, pts, evolution) && ConvertedBy(m, x, y) && rule(x) == Some(v)
    ensures Traced(m, rule, pts + [x], evolution + [(y, v)])
  {
  }

  /** A remembered list for the key: a sorted permutation of the first
      `from` shots. */
  ghost predicate Remembered<T(!new)>(list: seq<Shot<T>>, shots: seq<Shot<T>>, from: nat, key: (bool, bool)) {
    && from <= |shots|
    && multiset(list) == multiset(shots[..from])
    && SortedBy(list, ShotOrder(key.0, key.1))
  }

  /** A remembered list stays remembered when a shot is recorded after it. */
  lemma RememberedGrows<T(!new)>(list: seq<Shot<T>>, shots: seq<Shot<T>>, from: nat, key: (bool, bool), s: Shot<T>)
    requires Remembered(list, shots, from, key)
    ensures Remembered(list, shots + [s], from, key)
  {
    assert (shots + [s])[..from] == shots[..from];
  }

  /** A remembered list holds no shot more often than the shots do. */
  lemma RememberedBelow<T(!new)>(list: seq<Shot<T>>, shots: seq<Shot<T>>, from: nat, key: (bool, bool))
    requires Remembered(list, shots, from, key)
    ensures multiset(list) <= multiset(shots)
  {
    assert shots == shots[..from] + shots[from..];
  }

  /** Every coordinate of every point has an answer of the search. */
  ghost predicate AllSearchable<T>(w: TypeWrapper<T>, pts: seq<Vector>) {
    forall k, j | 0 <= k < |pts| && 0 <= j < |pts[k]| :: w.Search(pts[k][j]).Some?
  }

  class Results<T(==,!new)> {
    const algorithm: Option<Algorithm>
    var optimizationProcedure: Option<OptimizationProcedure>
    const converter: TypeWrapper<T>
    /** `allStartsResults`, in the order the shots were recorded. */
    var allStartsResults: seq<Shot<T>>
    /** The remembered sorted lists, keyed by (byFinalDecision, byTime). */
    var sortedResults: map<(bool, bool), seq<Shot<T>>>
    /** How many shots there were when each remembered list was sorted. */
    ghost var sortedFrom: map<(bool, bool), nat>
    /** The identity the next parsed start point will have. */
    var nextKey: nat

    /** Start points are distinct arrays, so no shot ever replaces another;
        each remembered list is a sorted permutation of the shots recorded
        before it was made. */
    ghost predicate Valid()
      reads this
    {
      && (forall i | 0 <= i < |allStartsResults| :: allStartsResults[i].startKey < nextKey)
      && (forall i, j | 0 <= i < j < |allStartsResults| :: allStartsResults[i].startKey != allStartsResults[j].startKey)
      && sortedResults.Keys == sortedFrom.Keys
      && forall key | key in sortedResults :: Remembered(sortedResults[key], allStartsResults, sortedFrom[key], key)
    }

    constructor(algorithm: Option<Algorithm>, procedure: Option<OptimizationProcedure>, converter: TypeWrapper<T>)
      ensures this.algorithm == algorithm && optimizationProcedure == procedure && this.converter == converter
      ensures allStartsResults == [] && sortedResults == map[] && nextKey == 0
      ensures Valid()
    {
      this.algorithm := algorithm;
      optimizationProcedure := procedure;
      this.converter := converter;
      allStartsResults := [];
      sortedResults := map[];
      sortedFrom := map[];
      nextKey := 0;
    }

    /** The constructor as written: it rejects a null procedure, but never
        stores the procedure it was given, so the `updateResults` it runs
        meets a null procedure and fails. */
    static method CreateAsWritten(procedure: Option<OptimizationProcedure>, converter: TypeWrapper<T>, time: real)
      returns (r: Result<Results<T>>)
      requires converter.Valid()
      modifies converter
      ensures converter.Valid()
      ensures r == Err(IllegalArgument)
    {
      if procedure.None? {
        return Err(IllegalArgument);
      }
      var res := new Results(procedure.value.config.algorithm, None, converter);
      var u := res.UpdateResults(time);
      if u.Err? {
        return Err(u.error);
      }
      r := Ok(res);
    }

    /** The constructor as intended: it keeps the procedure and starts with
        no shots; `updateResults` records one after each start. */
    static method Create(procedure: Option<OptimizationProcedure>, converter: TypeWrapper<T>)
      returns (r: Result<Results<T>>)
      ensures procedure.None? ==> r == Err(IllegalArgument)
      ensures procedure.Some? ==> r.Ok?
      ensures r.Ok? ==>
        && fresh(r.value) && r.value.Valid()
        && r.value.optimizationProcedure == procedure && r.value.converter == converter
        && r.value.algorithm == procedure.value.config.algorithm
        && r.value.allStartsResults == [] && r.value.sortedResults == map[]
    {
      if procedure.None? {
        return Err(IllegalArgument);
      }
      var res := new Results(procedure.value.config.algorithm, procedure, converter);
      r := Ok(res);
    }

    /** The `OneShot` constructor: the decision, the start point and the
        trajectory of the procedure, each point converted back; `time` is what
        the procedure's timer measured. A null procedure, one not yet
        started, or a point the wrapper cannot convert is a `Runtime` error. */
    method NewShot(time: real, key: nat) returns (r: Result<Shot<T>>)
      requires converter.Valid()
      requires optimizationProcedure.Some? ==> optimizationProcedure.value.Valid()
      modifies converter
      ensures converter.Valid() && Extends(converter.toTypeMap, old(converter.toTypeMap))
      ensures r.Err? ==> r.error == Runtime
      ensures optimizationProcedure.None? ==> r.Err?
      ensures optimizationProcedure.Some? && |optimizationProcedure.value.procedurePoints| == 0 ==> r.Err?
      ensures (&& optimizationProcedure.Some? && |optimizationProcedure.value.procedurePoints| != 0
               && AllSearchable(converter, optimizationProcedure.value.procedurePoints)) ==> r.Ok?
      ensures r.Ok? ==>
        optimizationProcedure.Some? &&
        FromTrajectory(r.value, optimizationProcedure.value, converter.toTypeMap, time, key)
    {
      if optimizationProcedure.None? {
        return Err(Runtime);
      }
      var p := optimizationProcedure.value;
      var decision := p.OptimizedDecision();
      if decision.Err? {
        return Err(Runtime);
      }
      p.DecisionInDomain();
      var pts := p.procedurePoints;
      var finalPoint := converter.ConvertRealPoint(Some(decision.value.0));
      if finalPoint.Err? {
        return Err(Runtime);
      }
      ghost var afterFinal := converter.toTypeMap;
      var startPoint := converter.ConvertRealPoint(Some(pts[0]));
      if startPoint.Err? {
        return Err(Runtime);
      }
      ConvertedByExtends(afterFinal, converter.toTypeMap, pts[|pts| - 1], finalPoint.value);
      ExtendsTransitive(old(converter.toTypeMap), afterFinal, converter.toTypeMap);
      var evolution: seq<(seq<T>, real)> := [];
      var k := 0;
      while k < |pts|
        invariant converter.Valid() && Extends(converter.toTypeMap, old(converter.toTypeMap))
        invariant 0 <= k <= |pts|
        invariant ConvertedBy(converter.toTypeMap, pts[|pts| - 1], finalPoint.value)
        invariant ConvertedBy(converter.toTypeMap, pts[0], startPoint.value)
        invariant Traced(converter.toTypeMap, p.costFunction.rule, pts[..k], evolution)
      {
        ghost var before := converter.toTypeMap;
        var c := converter.ConvertRealPoint(Some(pts[k]));
        if c.Err? {
          return Err(Runtime);
        }
        ConvertedByExtends(before, converter.toTypeMap, pts[|pts| - 1], finalPoint.value);
        ConvertedByExtends(before, converter.toTypeMap, pts[0], startPoint.value);
        TracedExtends(before, converter.toTypeMap, p.costFunction.rule, pts[..k], evolution);
        ExtendsTransitive(old(converter.toTypeMap), before, converter.toTypeMap);
        assert p.costFunction.Defined(pts[k]);
        TracedAppend(converter.toTypeMap, p.costFunction.rule, pts[..k], evolution, pts[k], c.value,
                     p.costFunction.rule(pts[k]).value);
        assert pts[..k + 1] == pts[..k] + [pts[k]];
        evolution := evolution + [(c.value, p.costFunction.rule(pts[k]).value)];
        k := k + 1;
      }
      assert pts[..k] == pts;
      r := Ok(Shot(key, startPoint.value, time, finalPoint.value, decision.value.1.value, evolution));
    }

    /** `updateResults`: a new shot of the procedure's present trajectory,
        keyed by a new start-point array. The remembered sorted lists are
        left as they are. */
    method UpdateResults(time: real) returns (r: Result<()>)
      requires Valid() && converter.Valid()
      requires optimizationProcedure.Some? ==> optimizationProcedure.value.Valid()
      modifies this, converter
      ensures Valid() && converter.Valid() && Extends(converter.toTypeMap, old(converter.toTypeMap))
      ensures sortedResults == old(sortedResults)
      ensures optimizationProcedure == old(optimizationProcedure)
      ensures r.Err? ==> r.error == IllegalArgument && allStartsResults == old(allStartsResults)
      ensures optimizationProcedure.None? ==> r.Err?
      ensures optimizationProcedure.Some? && |optimizationProcedure.value.procedurePoints| == 0 ==> r.Err?
      ensures (&& optimizationProcedure.Some? && |optimizationProcedure.value.procedurePoints| != 0
               && AllSearchable(converter, optimizationProcedure.value.procedurePoints)) ==> r.Ok?
      ensures r.Ok? ==>
        && |allStartsResults| == |old(allStartsResults)| + 1
        && allStartsResults[..|old(allStartsResults)|] == old(allStartsResults)
        && FindShot(old(allStartsResults), allStartsResults[|old(allStartsResults)|].startKey).None?
        && optimizationProcedure.Some?
        && FromTrajectory(allStartsResults[|old(allStartsResults)|], optimizationProcedure.value,
                          converter.toTypeMap, time, old(nextKey))
    {
      var shot := NewShot(time, nextKey);
      if shot.Err? {
        return Err(Rethrown(shot.error));
      }
      ghost var n := |allStartsResults|;
      allStartsResults := allStartsResults + [shot.value];
      nextKey := nextKey + 1;
      forall key | key in sortedResults
        ensures Remembered(sortedResults[key], allStartsResults, sortedFrom[key], key)
      {
        RememberedGrows(sortedResults[key], old(allStartsResults), sortedFrom[key], key, shot.value);
      }
      assert allStartsResults[..n] == old(allStartsResults);
      r := Ok(());
    }

    /** `getSortedResults`: the remembered list for the flags, or else the
        shots sorted by the comparator, which is then remembered. */
    method GetSortedResults(byFinalDecision: bool, byTime: bool) returns (r: seq<Shot<T>>)
      requires Valid()
      modifies this
      ensures Valid()
      ensures allStartsResults == old(allStartsResults) && nextKey == old(nextKey)
      ensures optimizationProcedure == old(optimizationProcedure)
      ensures (byFinalDecision, byTime) in old(sortedResults) ==>
        r == old(sortedResults)[(byFinalDecision, byTime)] && sortedResults == old(sortedResults)
      ensures (byFinalDecision, byTime) !in old(sortedResults) ==>
        && r == SortBy(allStartsResults, ShotOrder(byFinalDecision, byTime))
        && sortedResults == old(sortedResults)[(byFinalDecision, byTime) := r]
      ensures (byFinalDecision, byTime) in sortedResults && sortedResults[(byFinalDecision, byTime)] == r
      ensures SortedBy(r, ShotOrder(byFinalDecision, byTime))
      ensures multiset(r) <= multiset(allStartsResults)
    {
      var key := (byFinalDecision, byTime);
      if key in sortedResults {
        r := sortedResults[key];
        RememberedBelow(r, allStartsResults, sortedFrom[key], key);
        return;
      }
      SortedShots(allStartsResults, byFinalDecision, byTime);
      r := SortBy(allStartsResults, ShotOrder(byFinalDecision, byTime));
      assert allStartsResults[..|allStartsResults|] == allStartsResults;
      assert Remembered(r, allStartsResults, |allStartsResults|, key);
      sortedResults := sortedResults[key := r];
      sortedFrom := sortedFrom[key := |allStartsResults|];
    }

    /** `getOptimizationTime(T[])`: the time of the shot with that start
        point; a start point with no shot is a `Runtime` error. */
    function OptimizationTime(startKey: nat): (r: Result<real>)
      reads this
      ensures r.Err? <==> forall i | 0 <= i < |allStartsResults| :: allStartsResults[i].startKey != startKey
      ensures r.Err? ==> r.error == Runtime
      ensures r.Ok? ==> exists s | s in allStartsResults :: s.startKey == startKey && r.value == s.time
    {
      match FindShot(allStartsResults, startKey)
      case None => Err(Runtime)
      case Some(s) => Ok(s.time)
    }

    /** `getOptimizedDecision(T[])`. */
    function OptimizedDecision(startKey: nat): (r: Result<(seq<T>, real)>)
      reads this
      ensures r.Err? <==> forall i | 0 <= i < |allStartsResults| :: allStartsResults[i].startKey != startKey
      ensures r.Err? ==> r.error == Runtime
      ensures r.Ok? ==> exists s | s in allStartsResults ::
        s.startKey == startKey && r.value == (s.finalPoint, s.finalValue)
    {
      match FindShot(allStartsResults, startKey)
      case None => Err(Runtime)
      case Some(s) => Ok((s.finalPoint, s.finalValue))
    }

    /** `getProcedurePoints(T[])`. */
    function ProcedurePoints(startKey: nat): (r: Result<seq<(seq<T>, real)>>)
      reads this
      ensures r.Err? <==> forall i | 0 <= i < |allStartsResults| :: allStartsResults[i].startKey != startKey
      ensures r.Err? ==> r.error == Runtime
      ensures r.Ok? ==> exists s | s in allStartsResults :: s.startKey == startKey && r.value == s.evolution
    {
      match FindShot(allStartsResults, startKey)
      case None => Err(Runtime)
      case Some(s) => Ok(s.evolution)
    }

    /** `getOptimizationTime(boolean, boolean)`: whatever the flags, the
        first shot of the list sorted by time alone; no shot is a `Runtime`
        error. */
    method BestTime(byFinalDecision: bool, byTime: bool) returns (r: Result<real>)
      requires Valid()
      modifies this
      ensures Valid() && allStartsResults == old(allStartsResults)
      ensures (false, true) in sortedResults
      ensures r.Err? <==> |sortedResults[(false, true)]| == 0
      ensures r.Err? ==> r.error == Runtime
      ensures r.Ok? ==> r.value == sortedResults[(false, true)][0].time
      ensures r.Ok? ==> forall s | s in sortedResults[(false, true)] :: r.value <= s.time
    {
      var sorted := GetSortedResults(false, true);
      if |sorted| == 0 {
        return Err(Runtime);
      }
      FirstHasLeastTime(sorted);
      r := Ok(sorted[0].time);
    }

    /** `getOptimizedDecision(boolean, boolean)`: the decision of the
        quickest shot, whatever the flags. */
    method BestDecision(byFinalDecision: bool, byTime: bool) returns (r: Result<(seq<T>, real)>)
      requires Valid()
      modifies this
      ensures Valid() && allStartsResults == old(allStartsResults)
      ensures (false, true) in sortedResults
      ensures r.Err? <==> |sortedResults[(false, true)]| == 0
      ensures r.Err? ==> r.error == Runtime
      ensures r.Ok? ==>
        var best := sortedResults[(false, true)][0];
        && r.value == (best.finalPoint, best.finalValue)
        && forall s | s in sortedResults[(false, true)] :: best.time <= s.time
    {
      var sorted := GetSortedResults(false, true);
      if |sorted| == 0 {
        return Err(Runtime);
      }
      FirstHasLeastTime(sorted);
      r := Ok((sorted[0].finalPoint, sorted[0].finalValue));
    }

    /** `getProcedurePoints(boolean, boolean)`: the trajectory of the
        quickest shot, whatever the flags. */
    method BestProcedurePoints(byFinalDecision: bool, byTime: bool) returns (r: Result<seq<(seq<T>, real)>>)
      requires Valid()
      modifies this
      ensures Valid() && allStartsResults == old(allStartsResults)
      ensures (false, true) in sortedResults
      ensures r.Err? <==> |sortedResults[(false, true)]| == 0
      ensures r.Err? ==> r.error == Runtime
      ensures r.Ok? ==>
        var best := sortedResults[(false, true)][0];
        && r.value == best.evolution
        && forall s | s in sortedResults[(false, true)] :: best.time <= s.time
    {
      var sorted := GetSortedResults(false, true);
      if |sorted| == 0 {
        return Err(Runtime);
      }
      FirstHasLeastTime(sorted);
      r := Ok(sorted[0].evolution);
    }
  }
}
