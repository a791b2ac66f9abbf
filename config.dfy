/** `Config`: the domain-search settings of an optimisation session and the
    algorithm it uses. The algorithm type is a parameter `A` so that the cost
    function, which reads the settings, does not depend on the algorithms,
    which read the cost function. A Java `null` algorithm is `None`. */
module Configurations {
  import opened Wrappers

  const DEFAULT_ACCURACY: real := 0.01
  const DEFAULT_LOWER: real := -10000.0
  const DEFAULT_UPPER: real := 10000.0
  const DEFAULT_MAX_RECURSION_NUM: int := 400

  const INT_MIN: int := -0x8000_0000
  const INT_MAX: int := 0x7fff_ffff

  datatype Config<A> = Config(accuracyOfDomainSearch: real, searchRange: seq<real>, algorithm: Option<A>)
  {
    /** What every constructor establishes. */
    predicate Valid() {
      |searchRange| == 2 && searchRange[0] <= searchRange[1] && accuracyOfDomainSearch != 0.0
    }

    function Lower(): real requires Valid() { searchRange[0] }
    function Upper(): real requires Valid() { searchRange[1] }
  }

  /** The three-argument constructor: a null algorithm, a range that is not a
      pair, or a pair in the wrong order is rejected; accuracy 0 means "default". */
  function NewConfig<A>(accuracy: real, searchRange: seq<real>, algorithm: Option<A>): (r: Result<Config<A>>)
    ensures r.Err? <==> algorithm.None? || |searchRange| != 2 || searchRange[0] > searchRange[1]
    ensures r.Err? ==> r.error == IllegalArgument
    ensures r.Ok? ==>
      && r.value.Valid()
      && r.value.searchRange == searchRange
      && r.value.algorithm == algorithm
      && r.value.accuracyOfDomainSearch == (if accuracy == 0.0 then DEFAULT_ACCURACY else accuracy)
  {
    if algorithm.None? then Err(IllegalArgument)
    else if |searchRange| != 2 || searchRange[0] > searchRange[1] then Err(IllegalArgument)
    else Ok(Config(if accuracy != 0.0 then accuracy else DEFAULT_ACCURACY, searchRange, algorithm))
  }

  /** The no-argument constructor; `gradientDescent` is the freshly made default algorithm. */
  function DefaultConfig<A>(gradientDescent: A): (c: Config<A>)
    ensures c.Valid() && c.algorithm == Some(gradientDescent)
    ensures c.accuracyOfDomainSearch == DEFAULT_ACCURACY && c.searchRange == [DEFAULT_LOWER, DEFAULT_UPPER]
  {
    Config(DEFAULT_ACCURACY, [DEFAULT_LOWER, DEFAULT_UPPER], Some(gradientDescent))
  }

  /** `Config(Algorithm)`: default settings and the given algorithm, which is not checked for null. */
  function ConfigWith<A>(algorithm: Option<A>): (c: Config<A>)
    ensures c.Valid() && c.algorithm == algorithm
    ensures c.accuracyOfDomainSearch == DEFAULT_ACCURACY && c.searchRange == [DEFAULT_LOWER, DEFAULT_UPPER]
  {
    Config(DEFAULT_ACCURACY, [DEFAULT_LOWER, DEFAULT_UPPER], algorithm)
  }

  /** Java's `(int)` / `intValue()` of a finite double: truncation towards zero,
      saturating at the bounds of `int`. */
  function IntValue(v: real): (n: int)
    ensures INT_MIN <= n <= INT_MAX
    ensures INT_MIN as real <= v <= INT_MAX as real ==>
      && (0.0 <= v ==> n as real <= v < n as real + 1.0)
      && (v < 0.0 ==> n as real - 1.0 < v <= n as real)
  {
    if v >= INT_MAX as real then INT_MAX
    else if v <= INT_MIN as real then INT_MIN
    else if v >= 0.0 then v.Floor
    else -((-v).Floor)
  }

  /** `getMaxRecursionNumber`: the number of accuracy steps across the range,
      capped at 400 and truncated to an int. */
  function MaxRecursionNumber<A>(c: Config<A>): (n: int)
    requires c.Valid()
    ensures n <= DEFAULT_MAX_RECURSION_NUM
    ensures var given := (c.Upper() - c.Lower()) / c.accuracyOfDomainSearch;
      given >= DEFAULT_MAX_RECURSION_NUM as real ==> n == DEFAULT_MAX_RECURSION_NUM
    ensures 0.0 < c.accuracyOfDomainSearch ==>
      && 0 <= n
      && var given := (c.Upper() - c.Lower()) / c.accuracyOfDomainSearch;
         (given < DEFAULT_MAX_RECURSION_NUM as real ==> n as real <= given < n as real + 1.0)
  {
    var given := (c.Upper() - c.Lower()) / c.accuracyOfDomainSearch;
    var max := if given < DEFAULT_MAX_RECURSION_NUM as real then given else DEFAULT_MAX_RECURSION_NUM as real;
    IntValue(max)
  }

  /** The default settings give the full cap of 400 recursive search steps. */
  lemma DefaultRecursionCap<A>(gradientDescent: A)
    ensures MaxRecursionNumber(DefaultConfig(gradientDescent)) == DEFAULT_MAX_RECURSION_NUM
    ensures MaxRecursionNumber(ConfigWith(Some(gradientDescent))) == DEFAULT_MAX_RECURSION_NUM
  {
    var c := DefaultConfig(gradientDescent);
    assert (c.Upper() - c.Lower()) / c.accuracyOfDomainSearch == 2000000.0;
  }

  /** A negative accuracy, which the constructor keeps, gives a cap of at most 0. */
  lemma NegativeAccuracyCap<A>(c: Config<A>)
    requires c.Valid() && c.accuracyOfDomainSearch < 0.0
    ensures MaxRecursionNumber(c) <= 0
  {
    var given := (c.Upper() - c.Lower()) / c.accuracyOfDomainSearch;
    assert given <= 0.0 by {
      var d := c.Upper() - c.Lower();
      assert 0.0 <= d;
      assert given * c.accuracyOfDomainSearch == d;
    }
  }
}
