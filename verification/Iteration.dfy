/** Repeated application of a step function. */
module Iteration {

  function Iterate<S>(f: S -> S, s: S, k: nat): S {
    if k == 0 then s else Iterate(f, f(s), k - 1)
  }

  lemma {:induction false} IterateSplit<S>(f: S -> S, s: S, j: nat, k: nat)
    ensures Iterate(f, s, j + k) == Iterate(f, Iterate(f, s, j), k)
  {
    if j > 0 {
      IterateSplit(f, f(s), j - 1, k);
    }
  }

  lemma IterateLast<S>(f: S -> S, s: S, k: nat)
    ensures Iterate(f, s, k + 1) == f(Iterate(f, s, k))
  {
    IterateSplit(f, s, k, 1);
    assert Iterate(f, Iterate(f, s, k), 1) == Iterate(f, f(Iterate(f, s, k)), 0);
  }
}
