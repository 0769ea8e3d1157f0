/** Option and Result, used wherever the services answer null or throw. */
module Wrappers {

  datatype Option<+T> = None | Some(value: T)

  datatype Result<+T, +E> = Success(value: T) | Failure(error: E)

  // `value ?? 0`.
  function OrZero(o: Option<int>): int {
    if o.Some? then o.value else 0
  }

  function Max(a: int, b: int): int {
    if a < b then b else a
  }

  lemma FreshNat(used: set<nat>) returns (n: nat)
    ensures n !in used
  {
    n := 0;
    var below: set<nat> := {};
    while n in used
      invariant below <= used && |below| == n && forall l :: l in below ==> l < n
      decreases |used - below|
    {
      below := below + {n};
      n := n + 1;
    }
  }
}
