/** Sums over the elements of a sequence. */
module Sums {
  /** What the first n elements weigh together. */
  function SumUpTo<T>(w: T -> int, xs: seq<T>, n: nat): int
    requires n <= |xs|
  {
    if n == 0 then 0 else SumUpTo(w, xs, n - 1) + w(xs[n - 1])
  }

  function Sum<T>(w: T -> int, xs: seq<T>): int {
    SumUpTo(w, xs, |xs|)
  }

  lemma {:induction false} SumPrefix<T>(w: T -> int, xs: seq<T>, x: T, n: nat)
    requires n <= |xs|
    ensures SumUpTo(w, xs + [x], n) == SumUpTo(w, xs, n)
  {
    if n > 0 {
      SumPrefix(w, xs, x, n - 1);
    }
  }

  lemma SumAppend<T>(w: T -> int, xs: seq<T>, x: T)
    ensures Sum(w, xs + [x]) == Sum(w, xs) + w(x)
  {
    SumPrefix(w, xs, x, |xs|);
  }

  lemma {:induction false} SumUpToUpdate<T>(w: T -> int, xs: seq<T>, i: nat, x: T, n: nat)
    requires i < |xs| && n <= |xs|
    ensures SumUpTo(w, xs[i := x], n) == SumUpTo(w, xs, n) + if i < n then w(x) - w(xs[i]) else 0
  {
    if n > 0 {
      SumUpToUpdate(w, xs, i, x, n - 1);
    }
  }

  lemma SumUpdate<T>(w: T -> int, xs: seq<T>, i: nat, x: T)
    requires i < |xs|
    ensures Sum(w, xs[i := x]) == Sum(w, xs) + w(x) - w(xs[i])
  {
    SumUpToUpdate(w, xs, i, x, |xs|);
  }

  lemma {:induction false} SumShift<T>(w: T -> int, xs: seq<T>, n: nat)
    requires 1 <= n <= |xs|
    ensures SumUpTo(w, xs, n) == w(xs[0]) + SumUpTo(w, xs[1..], n - 1)
  {
    if n > 1 {
      SumShift(w, xs, n - 1);
    } else {
      assert SumUpTo(w, xs, 0) == 0 && SumUpTo(w, xs[1..], 0) == 0;
    }
  }

  lemma {:induction false} SumBothUpTo<T>(w: T -> int, a: seq<T>, b: seq<T>, n: nat)
    requires n <= |b|
    ensures SumUpTo(w, a + b, |a| + n) == Sum(w, a) + SumUpTo(w, b, n)
  {
    if n > 0 {
      SumBothUpTo(w, a, b, n - 1);
    } else {
      SumSame(w, a + b, a, |a|);
    }
  }

  lemma {:induction false} SumSame<T>(w: T -> int, xs: seq<T>, ys: seq<T>, n: nat)
    requires n <= |xs| && n <= |ys| && forall i | 0 <= i < n :: w(xs[i]) == w(ys[i])
    ensures SumUpTo(w, xs, n) == SumUpTo(w, ys, n)
  {
    if n > 0 {
      SumSame(w, xs, ys, n - 1);
    }
  }

  /** One element less. */
  lemma SumWithout<T>(w: T -> int, xs: seq<T>, i: nat)
    requires i < |xs|
    ensures Sum(w, xs[..i] + xs[i + 1..]) == Sum(w, xs) - w(xs[i])
  {
    SumBothUpTo(w, xs[..i], xs[i + 1..], |xs| - i - 1);
    SumBothUpTo(w, xs[..i + 1], xs[i + 1..], |xs| - i - 1);
    SumAppend(w, xs[..i], xs[i]);
    assert xs[..i] + [xs[i]] == xs[..i + 1] && xs[..i + 1] + xs[i + 1..] == xs;
  }

  lemma {:induction false} SumNotNegative<T>(w: T -> int, xs: seq<T>, n: nat)
    requires n <= |xs| && forall i | 0 <= i < n :: w(xs[i]) >= 0
    ensures SumUpTo(w, xs, n) >= 0
  {
    if n > 0 {
      SumNotNegative(w, xs, n - 1);
    }
  }

  lemma {:induction false} SumIsZero<T>(w: T -> int, xs: seq<T>, n: nat)
    requires n <= |xs| && forall i | 0 <= i < n :: w(xs[i]) == 0
    ensures SumUpTo(w, xs, n) == 0
  {
    if n > 0 {
      SumIsZero(w, xs, n - 1);
    }
  }
}
