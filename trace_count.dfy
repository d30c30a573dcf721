/** Counting the events of a trace of library calls. */
module Traces {

  /** The number of events in `es` that satisfy `p`. */
  function CountWhere<E>(es: seq<E>, p: E -> bool): (n: nat)
    ensures n <= |es|
  {
    if |es| == 0 then 0
    else CountWhere(es[..|es| - 1], p) + (if p(es[|es| - 1]) then 1 else 0)
  }

  /** Counting distributes over concatenation. */
  lemma {:induction false} CountWhereAppend<E>(a: seq<E>, b: seq<E>, p: E -> bool)
    ensures CountWhere(a + b, p) == CountWhere(a, p) + CountWhere(b, p)
    decreases |b|
  {
    if |b| == 0 {
      assert a + b == a;
    } else {
      assert (a + b)[..|a + b| - 1] == a + b[..|b| - 1];
      CountWhereAppend(a, b[..|b| - 1], p);
    }
  }
}
