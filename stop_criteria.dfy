/** The `StopCriteria` template: no decision before two trajectory points,
    then the subclass rule or the hard cap on the trajectory length. The
    subclass rule arrives as the boolean `specified`; the driver consults it
    only when `Consults` holds. */
module StopCriteria {

  const MAX_ITERATIONS_NUM: int := 1000000
  const DEFAULT_ERROR: real := 0.1

  /** `basicCriteria`: the hard cap on the number of trajectory points. */
  function BasicCriteria(iterationsNumber: int): (r: bool)
    ensures r <==> MAX_ITERATIONS_NUM <= iterationsNumber
  {
    iterationsNumber >= MAX_ITERATIONS_NUM
  }

  /** `isAchieved` consults `specifiedCriteria` only from two points on. */
  predicate Consults(iterationsNumber: nat) {
    !(iterationsNumber == 0 || iterationsNumber == 1)
  }

  /** `isAchieved` once the subclass has answered `specified`. */
  function IsAchieved(iterationsNumber: nat, specified: bool): (r: bool)
    ensures !Consults(iterationsNumber) ==> !r
    ensures Consults(iterationsNumber) && specified ==> r
    ensures Consults(iterationsNumber) && MAX_ITERATIONS_NUM <= iterationsNumber ==> r
    ensures r ==> specified || MAX_ITERATIONS_NUM <= iterationsNumber
  {
    if iterationsNumber == 0 || iterationsNumber == 1 then false
    else specified || BasicCriteria(iterationsNumber)
  }
}
