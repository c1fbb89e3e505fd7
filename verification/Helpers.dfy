/** Time differences as the server reports them. A clock reading is a count of nanoseconds. */
module Helpers {
  import opened Wrappers

  /** Whole seconds from start to stop, or nothing when either is missing or stop comes first. */
  function Elapsed(startTime: Option<int>, stopTime: Option<int>): (r: Option<nat>)
    ensures r.Some? <==> startTime.Some? && stopTime.Some? && startTime.value <= stopTime.value
    ensures r.Some? ==>
              r.value * 1_000_000_000 <= stopTime.value - startTime.value < (r.value + 1) * 1_000_000_000
  {
    if startTime.Some? && stopTime.Some? && startTime.value <= stopTime.value
    then Some((stopTime.value - startTime.value) / 1_000_000_000)
    else None
  }
}
