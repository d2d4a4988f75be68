/** Sums over table rows. */
module Sums {
  function Min(a: int, b: int): int { if a < b then a else b }

  function Max(a: int, b: int): int { if a > b then a else b }

  function Same(x: int): int { x }

  function Sum<T>(xs: seq<T>, f: T -> int): int
  {
    if xs == [] then 0 else f(xs[0]) + Sum(xs[1..], f)
  }

  function Total(xs: seq<int>): int { Sum(xs, Same) }

  lemma {:induction false} SumConcat<T>(xs: seq<T>, ys: seq<T>, f: T -> int)
    ensures Sum(xs + ys, f) == Sum(xs, f) + Sum(ys, f)
  {
    if xs == [] {
      assert xs + ys == ys;
    } else {
      assert (xs + ys)[1..] == xs[1..] + ys;
      SumConcat(xs[1..], ys, f);
    }
  }

  lemma SumAppend<T>(xs: seq<T>, x: T, f: T -> int)
    ensures Sum(xs + [x], f) == Sum(xs, f) + f(x)
  {
    SumConcat(xs, [x], f);
    assert Sum([x], f) == f(x) + Sum([x][1..], f);
  }

  lemma SumLast<T>(xs: seq<T>, f: T -> int)
    requires xs != []
    ensures Sum(xs, f) == Sum(xs[..|xs| - 1], f) + f(xs[|xs| - 1])
  {
    assert xs == xs[..|xs| - 1] + [xs[|xs| - 1]];
    SumAppend(xs[..|xs| - 1], xs[|xs| - 1], f);
  }

  lemma SumFrom<T>(xs: seq<T>, k: nat, f: T -> int)
    requires k < |xs|
    ensures Sum(xs[k..], f) == f(xs[k]) + Sum(xs[k + 1..], f)
  {
    assert xs[k..][1..] == xs[k + 1..];
  }

  lemma SumAround<T>(xs: seq<T>, k: nat, f: T -> int)
    requires k < |xs|
    ensures Sum(xs, f) == Sum(xs[..k], f) + f(xs[k]) + Sum(xs[k + 1..], f)
  {
    assert xs == xs[..k] + xs[k..];
    SumConcat(xs[..k], xs[k..], f);
    SumFrom(xs, k, f);
  }

  lemma SumUpdate<T>(xs: seq<T>, i: nat, x: T, f: T -> int)
    requires i < |xs|
    ensures Sum(xs[i := x], f) == Sum(xs, f) - f(xs[i]) + f(x)
  {
    SumAround(xs, i, f);
    SumAround(xs[i := x], i, f);
    assert xs[i := x][..i] == xs[..i];
    assert xs[i := x][i + 1..] == xs[i + 1..];
  }

  /** Two weighings that agree on every row have the same sum. */
  lemma {:induction false} SumAgree<T>(xs: seq<T>, f: T -> int, g: T -> int)
    requires forall i :: 0 <= i < |xs| ==> f(xs[i]) == g(xs[i])
    ensures Sum(xs, f) == Sum(xs, g)
  {
    if xs != [] {
      SumAgree(xs[1..], f, g);
    }
  }

  /** A weighing that splits row by row splits over the whole table. */
  lemma {:induction false} SumSplit<T>(xs: seq<T>, f: T -> int, g: T -> int, h: T -> int)
    requires forall i :: 0 <= i < |xs| ==> f(xs[i]) == g(xs[i]) + h(xs[i])
    ensures Sum(xs, f) == Sum(xs, g) + Sum(xs, h)
  {
    if xs != [] {
      SumSplit(xs[1..], f, g, h);
    }
  }

  lemma {:induction false} SumZero<T>(xs: seq<T>, f: T -> int)
    requires forall i :: 0 <= i < |xs| ==> f(xs[i]) == 0
    ensures Sum(xs, f) == 0
  {
    if xs != [] { SumZero(xs[1..], f); }
  }

  lemma {:induction false} SumNonNegative<T>(xs: seq<T>, f: T -> int)
    requires forall i :: 0 <= i < |xs| ==> f(xs[i]) >= 0
    ensures Sum(xs, f) >= 0
    ensures forall i :: 0 <= i < |xs| ==> f(xs[i]) <= Sum(xs, f)
  {
    if xs != [] {
      SumNonNegative(xs[1..], f);
      assert forall i :: 0 < i < |xs| ==> xs[i] == xs[1..][i - 1];
    }
  }

  function Without<T>(xs: seq<T>, k: nat): seq<T>
    requires k < |xs|
  {
    xs[..k] + xs[k + 1..]
  }

  lemma SumWithout<T>(xs: seq<T>, k: nat, f: T -> int)
    requires k < |xs|
    ensures Sum(xs, f) == f(xs[k]) + Sum(Without(xs, k), f)
  {
    SumAround(xs, k, f);
    SumConcat(xs[..k], xs[k + 1..], f);
  }

  lemma BagWithout<T>(xs: seq<T>, k: nat)
    requires k < |xs|
    ensures multiset(Without(xs, k)) == multiset(xs) - multiset{xs[k]}
  {
    assert xs == xs[..k] + ([xs[k]] + xs[k + 1..]);
  }

  /** A sum does not depend on the order of the rows. */
  lemma {:induction false} SumPermutation<T>(xs: seq<T>, ys: seq<T>, f: T -> int)
    requires multiset(xs) == multiset(ys)
    ensures Sum(xs, f) == Sum(ys, f)
    decreases |xs|
  {
    if xs == [] {
      assert |multiset(ys)| == 0;
    } else {
      assert xs[0] in multiset(ys);
      var k :| 0 <= k < |ys| && ys[k] == xs[0];
      SumWithout(xs, 0, f);
      SumWithout(ys, k, f);
      BagWithout(xs, 0);
      BagWithout(ys, k);
      SumPermutation(Without(xs, 0), Without(ys, k), f);
    }
  }
}
