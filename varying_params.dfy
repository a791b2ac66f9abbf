/** `java.util.Queue` as the library uses it: a `LinkedList` of doubles with
    `add` at the tail and `peek`/`remove` at the head. */
module Queues {
  import opened Wrappers

  class Queue {
    var items: seq<real>

    constructor()
      ensures items == []
    {
      items := [];
    }

    predicate IsEmpty()
      reads this
    {
      |items| == 0
    }

    /** `peek`: the head, or null for an empty queue. */
    function Peek(): (r: Option<real>)
      reads this
      ensures r.None? <==> IsEmpty()
      ensures r.Some? ==> r.value == items[0]
    {
      if |items| == 0 then None else Some(items[0])
    }

    method Add(x: real)
      modifies this
      ensures items == old(items) + [x]
    {
      items := items + [x];
    }

    /** `remove`: takes off the head; an empty queue throws. */
    method Remove() returns (r: Result<real>)
      modifies this
      ensures old(IsEmpty()) ==> r == Err(Runtime) && items == old(items)
      ensures !old(IsEmpty()) ==> r == Ok(old(items)[0]) && [r.value] + items == old(items)
    {
      if |items| == 0 {
        return Err(Runtime);
      }
      r := Ok(items[0]);
      items := items[1..];
    }
  }
}

/** `VaryingParams`: the state a `GradientKaczmarzTraining` run varies, and
    the default threshold queues e_k and m_k of its M1 stopping rule. */
module VaryingParameters {
  import opened MathHelp
  import opened Queues

  /** The k of the default queues. */
  const DEFAULT_K: int := 10

  /** The m_k thresholds: 100/(j+1) for j = 0..8. */
  function DefaultMk(): (mk: seq<real>)
    ensures |mk| == DEFAULT_K - 1
    ensures forall j | 0 <= j < |mk| :: mk[j] * (j + 1) as real == 100.0 && 0.0 < mk[j]
  {
    seq(DEFAULT_K - 1, j requires 0 <= j < DEFAULT_K - 1 => 100.0 / (j + 1) as real)
  }

  /** The e_k thresholds: 1/j for j = 9..19; j never reaches 0 here. */
  function DefaultEk(): (ek: seq<real>)
    ensures |ek| == DEFAULT_K + 1
    ensures forall t | 0 <= t < |ek| :: ek[t] * (t + DEFAULT_K - 1) as real == 1.0 && 0.0 < ek[t]
  {
    seq(DEFAULT_K + 1, t requires 0 <= t < DEFAULT_K + 1 => 1.0 / (t + DEFAULT_K - 1) as real)
  }

  /** `createDefaultEkMk` (and the same loop in `createDefaultM1Stopping`):
      j = 0..2k-1, the first k-1 values of j feed m_k, the rest feed e_k. */
  method CreateDefaultEkMk(ek: Queue, mk: Queue)
    requires ek != mk
    modifies ek, mk
    ensures ek.items == old(ek.items) + DefaultEk()
    ensures mk.items == old(mk.items) + DefaultMk()
  {
    var k := DEFAULT_K;
    for j := 0 to 2 * k
      invariant j <= k - 1 ==> mk.items == old(mk.items) + DefaultMk()[..j] && ek.items == old(ek.items)
      invariant k - 1 < j ==>
        mk.items == old(mk.items) + DefaultMk() && ek.items == old(ek.items) + DefaultEk()[..j - (k - 1)]
    {
      if j < k - 1 {
        mk.Add(100.0 / (j + 1) as real);
        assert DefaultMk()[..j + 1] == DefaultMk()[..j] + [100.0 / (j + 1) as real];
      } else {
        ek.Add(1.0 / j as real);
        assert DefaultEk()[..j + 1 - (k - 1)] == DefaultEk()[..j - (k - 1)] + [1.0 / j as real];
      }
    }
    assert DefaultEk()[..2 * k - (k - 1)] == DefaultEk();
  }

  class VaryingParams {
    var curDirection: Vector        // null until a run starts: the empty vector
    var prevGradient: Vector
    var anew: bool
    var done: bool
    var curSum: real
    var ek: Queue?
    var mk: Queue?
    var i: int
    var qk: int

    /** The field initialisers every constructor runs. */
    predicate Initial()
      reads this
    {
      anew && !done && curSum == 0.0 && i == 0 && qk == 0
    }

    /** The two-queue constructor keeps the given queues themselves, not copies. */
    constructor WithQueues(ek: Queue, mk: Queue)
      ensures Initial()
      ensures this.ek == ek && this.mk == mk
    {
      curDirection := [];
      prevGradient := [];
      anew := true;
      done := false;
      curSum := 0.0;
      i := 0;
      qk := 0;
      this.ek := ek;
      this.mk := mk;
    }

    constructor()
      ensures Initial()
      ensures ek == null && mk == null
    {
      curDirection := [];
      prevGradient := [];
      anew := true;
      done := false;
      curSum := 0.0;
      i := 0;
      qk := 0;
      ek := null;
      mk := null;
    }
  }
}
