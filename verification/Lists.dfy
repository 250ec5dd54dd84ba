/** What the elements of a sequence give, one after the other. */
module Lists {
  /** What the first n elements give. */
  function CollectUpTo<T, U>(f: T -> seq<U>, xs: seq<T>, n: nat): seq<U>
    requires n <= |xs|
  {
    if n == 0 then [] else CollectUpTo(f, xs, n - 1) + f(xs[n - 1])
  }

  function Collect<T, U>(f: T -> seq<U>, xs: seq<T>): seq<U> {
    CollectUpTo(f, xs, |xs|)
  }

  lemma {:induction false} CollectPrefix<T, U>(f: T -> seq<U>, xs: seq<T>, more: seq<T>, n: nat)
    requires n <= |xs|
    ensures CollectUpTo(f, xs + more, n) == CollectUpTo(f, xs, n)
  {
    if n > 0 {
      CollectPrefix(f, xs, more, n - 1);
    }
  }

  lemma CollectAppend<T, U>(f: T -> seq<U>, xs: seq<T>, x: T)
    ensures Collect(f, xs + [x]) == Collect(f, xs) + f(x)
  {
    CollectPrefix(f, xs, [x], |xs|);
  }

  lemma {:induction false} CollectBothUpTo<T, U>(f: T -> seq<U>, a: seq<T>, b: seq<T>, n: nat)
    requires n <= |b|
    ensures CollectUpTo(f, a + b, |a| + n) == Collect(f, a) + CollectUpTo(f, b, n)
  {
    if n == 0 {
      CollectPrefix(f, a, b, |a|);
    } else {
      CollectBothUpTo(f, a, b, n - 1);
    }
  }

  lemma CollectBoth<T, U>(f: T -> seq<U>, a: seq<T>, b: seq<T>)
    ensures Collect(f, a + b) == Collect(f, a) + Collect(f, b)
  {
    CollectBothUpTo(f, a, b, |b|);
  }

  lemma CollectOne<T, U>(f: T -> seq<U>, x: T)
    ensures Collect(f, [x]) == f(x)
  {
    assert CollectUpTo(f, [x], 1) == CollectUpTo(f, [x], 0) + f(x);
  }
}
