/** Repeated application of a step function, and how repetitions compose. */
module Iteration {

  /** `f` applied `n` times to `x`. */
  function Iterate<T>(f: T -> T, x: T, n: nat): T
    decreases n
  {
    if n == 0 then x else f(Iterate(f, x, n - 1))
  }

  /** `a` steps followed by `b` steps are `a + b` steps. */
  lemma {:induction false} IterateAdd<T>(f: T -> T, x: T, a: nat, b: nat)
    ensures Iterate(f, Iterate(f, x, a), b) == Iterate(f, x, a + b)
  {
    if b > 0 {
      IterateAdd(f, x, a, b - 1);
    }
  }

  /** A point that `period` steps bring back is brought back by every multiple of `period`. */
  lemma {:induction false} IterateFixPoint<T>(f: T -> T, x: T, period: nat, k: nat)
    requires Iterate(f, x, period) == x
    ensures Iterate(f, x, period * k) == x
  {
    if k > 0 {
      var m := period * (k - 1);
      IterateFixPoint(f, x, period, k - 1);
      IterateAdd(f, x, m, period);
      assert m + period == period * k;
    }
  }
}
