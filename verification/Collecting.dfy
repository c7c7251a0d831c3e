/** What the elements of a sequence contribute, one after the other. */
module Collecting {
  function Collect<T, U>(f: T -> seq<U>, xs: seq<T>): seq<U>
  {
    if xs == [] then [] else Collect(f, xs[..|xs| - 1]) + f(xs[|xs| - 1])
  }

  lemma {:induction false} CollectSplits<T, U>(f: T -> seq<U>, a: seq<T>, b: seq<T>)
    ensures Collect(f, a + b) == Collect(f, a) + Collect(f, b)
    decreases |b|
  {
    if b == [] {
      assert a + b == a;
    } else {
      assert (a + b)[..|a + b| - 1] == a + b[..|b| - 1];
      CollectSplits(f, a, b[..|b| - 1]);
    }
  }

  lemma CollectOne<T, U>(f: T -> seq<U>, x: T)
    ensures Collect(f, [x]) == f(x)
  {
    assert [x][..0] == [];
    assert [] + f(x) == f(x);
  }
}
