/** Counters of running effects, shared by the governor, the click gate and
    the animation gate. */
module Counters {

  /** One effect ends: the counter drops by one, but never below zero
      (`Math.max(0, n - 1)`), so ending more effects than were started is
      harmless. */
  function Release(n: nat): (r: nat)
    ensures r <= n <= r + 1
    ensures r < n <==> n > 0
  {
    if n == 0 then 0 else n - 1
  }
}
