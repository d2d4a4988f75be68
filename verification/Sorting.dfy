/** A stable sort by a comparison, standing for the database's `orderBy` and `Array.prototype.sort`. */
module Sorting {

  ghost predicate Transitive<T(!new)>(less: (T, T) -> bool)
  {
    forall x, y, z :: less(x, y) && less(y, z) ==> less(x, z)
  }

  ghost predicate Asymmetric<T(!new)>(less: (T, T) -> bool)
  {
    forall x, y :: less(x, y) ==> !less(y, x)
  }

  ghost predicate Sorted<T>(xs: seq<T>, less: (T, T) -> bool)
  {
    forall i, j :: 0 <= i < j < |xs| ==> !less(xs[j], xs[i])
  }

  ghost predicate NoRepeats<T>(xs: seq<T>)
  {
    forall i, j :: 0 <= i < j < |xs| ==> xs[i] != xs[j]
  }

  function Insert<T>(xs: seq<T>, x: T, less: (T, T) -> bool): seq<T>
  {
    if xs == [] then [x]
    else if less(x, xs[0]) then [x] + xs
    else [xs[0]] + Insert(xs[1..], x, less)
  }

  function SortBy<T>(xs: seq<T>, less: (T, T) -> bool): seq<T>
  {
    if xs == [] then [] else Insert(SortBy(xs[..|xs| - 1], less), xs[|xs| - 1], less)
  }

  lemma {:induction false} InsertPermutes<T>(xs: seq<T>, x: T, less: (T, T) -> bool)
    ensures multiset(Insert(xs, x, less)) == multiset(xs) + multiset{x}
  {
    if xs != [] {
      assert xs == [xs[0]] + xs[1..];
      InsertPermutes(xs[1..], x, less);
    }
  }

  lemma {:induction false} SortByPermutes<T>(xs: seq<T>, less: (T, T) -> bool)
    ensures multiset(SortBy(xs, less)) == multiset(xs)
  {
    if xs != [] {
      assert xs == xs[..|xs| - 1] + [xs[|xs| - 1]];
      SortByPermutes(xs[..|xs| - 1], less);
      InsertPermutes(SortBy(xs[..|xs| - 1], less), xs[|xs| - 1], less);
    }
  }

  lemma SortByLength<T>(xs: seq<T>, less: (T, T) -> bool)
    ensures |SortBy(xs, less)| == |xs|
  {
    SortByPermutes(xs, less);
    assert |multiset(SortBy(xs, less))| == |multiset(xs)|;
  }

  lemma {:induction false} InsertSorted<T(!new)>(xs: seq<T>, x: T, less: (T, T) -> bool)
    requires Transitive(less) && Asymmetric(less) && Sorted(xs, less)
    ensures Sorted(Insert(xs, x, less), less)
  {
    if xs != [] && !less(x, xs[0]) {
      var tail := Insert(xs[1..], x, less);
      InsertSorted(xs[1..], x, less);
      InsertPermutes(xs[1..], x, less);
      assert multiset(tail) == multiset(xs[1..]) + multiset{x};
      forall j | 0 <= j < |tail| ensures !less(tail[j], xs[0]) {
        assert tail[j] in multiset(tail);
        if tail[j] != x {
          assert tail[j] in xs[1..];
          var k :| 0 <= k < |xs[1..]| && xs[1..][k] == tail[j];
          assert xs[k + 1] == tail[j];
        }
      }
    } else if xs != [] {
      forall j | 0 <= j < |xs| ensures !less(xs[j], x) {
        assert j > 0 ==> !less(xs[j], xs[0]);
      }
    }
  }

  lemma {:induction false} SortBySorted<T(!new)>(xs: seq<T>, less: (T, T) -> bool)
    requires Transitive(less) && Asymmetric(less)
    ensures Sorted(SortBy(xs, less), less)
  {
    if xs != [] {
      SortBySorted(xs[..|xs| - 1], less);
      InsertSorted(SortBy(xs[..|xs| - 1], less), xs[|xs| - 1], less);
    }
  }

  lemma OnceMeansNoRepeats<T(!new)>(xs: seq<T>)
    requires forall x :: multiset(xs)[x] <= 1
    ensures NoRepeats(xs)
  {
    forall i, j | 0 <= i < j < |xs| ensures xs[i] != xs[j] {
      assert xs == xs[..j] + ([xs[j]] + xs[j + 1..]);
      assert xs[..j][i] == xs[i];
      assert multiset(xs)[xs[i]] == multiset(xs[..j])[xs[i]] + multiset([xs[j]] + xs[j + 1..])[xs[i]];
      assert xs[i] in multiset(xs[..j]);
    }
  }

  lemma {:induction false} NoRepeatsMeansOnce<T(!new)>(xs: seq<T>)
    requires NoRepeats(xs)
    ensures forall x :: multiset(xs)[x] <= 1
  {
    if xs != [] {
      NoRepeatsMeansOnce(xs[1..]);
      assert xs == [xs[0]] + xs[1..];
      assert xs[0] !in xs[1..];
    }
  }

  /** Sorting keeps what is in the list, and keeps it free of repeats. */
  lemma SortByNoRepeats<T(!new)>(xs: seq<T>, less: (T, T) -> bool)
    requires NoRepeats(xs)
    ensures NoRepeats(SortBy(xs, less))
    ensures forall x :: x in SortBy(xs, less) <==> x in xs
  {
    NoRepeatsMeansOnce(xs);
    SortByPermutes(xs, less);
    OnceMeansNoRepeats(SortBy(xs, less));
    forall x ensures x in SortBy(xs, less) <==> x in xs {
      assert x in multiset(xs) <==> x in multiset(SortBy(xs, less));
    }
  }

  /** Comparisons that agree on the list sort it the same way. */
  lemma {:induction false} SortByAgree<T(!new)>(xs: seq<T>, less: (T, T) -> bool, less': (T, T) -> bool)
    requires forall x, y :: less(x, y) == less'(x, y)
    ensures SortBy(xs, less) == SortBy(xs, less')
  {
    if xs != [] {
      SortByAgree(xs[..|xs| - 1], less, less');
      InsertAgree(SortBy(xs[..|xs| - 1], less), xs[|xs| - 1], less, less');
    }
  }

  lemma {:induction false} InsertAgree<T(!new)>(xs: seq<T>, x: T, less: (T, T) -> bool, less': (T, T) -> bool)
    requires forall x, y :: less(x, y) == less'(x, y)
    ensures Insert(xs, x, less) == Insert(xs, x, less')
  {
    if xs != [] { InsertAgree(xs[1..], x, less, less'); }
  }

  function Filter<T>(xs: seq<T>, p: T -> bool): seq<T>
  {
    if xs == [] then [] else (if p(xs[0]) then [xs[0]] else []) + Filter(xs[1..], p)
  }

  lemma FilterHead<T>(x: T, xs: seq<T>, p: T -> bool)
    ensures Filter([x] + xs, p) == (if p(x) then [x] else []) + Filter(xs, p)
  {
    assert ([x] + xs)[1..] == xs;
  }

  lemma {:induction false} FilterAppend<T>(xs: seq<T>, y: T, p: T -> bool)
    ensures Filter(xs + [y], p) == Filter(xs, p) + if p(y) then [y] else []
  {
    if xs == [] {
      FilterHead(y, [], p);
      assert [] + [y] == [y] + [];
    } else {
      FilterAppend(xs[1..], y, p);
      FilterHead(xs[0], xs[1..], p);
      FilterHead(xs[0], xs[1..] + [y], p);
      assert xs == [xs[0]] + xs[1..];
      assert xs + [y] == [xs[0]] + (xs[1..] + [y]);
    }
  }

  lemma {:induction false} FilterNone<T>(xs: seq<T>, p: T -> bool)
    requires forall i :: 0 <= i < |xs| ==> !p(xs[i])
    ensures Filter(xs, p) == []
  {
    if xs != [] { FilterNone(xs[1..], p); }
  }

  /** What is not between two elements is apart from one of them. */
  ghost predicate Weak<T(!new)>(less: (T, T) -> bool)
  {
    forall x, y, z :: less(x, z) ==> less(x, y) || less(y, z)
  }

  lemma Apart<T(!new)>(x: T, y: T, z: T, less: (T, T) -> bool)
    requires Weak(less) && less(x, z) && !less(y, z)
    ensures less(x, y)
  {
  }

  lemma {:induction false} InsertStable<T(!new)>(xs: seq<T>, x: T, less: (T, T) -> bool, p: T -> bool)
    requires Weak(less) && Sorted(xs, less) && forall a, b :: p(a) && p(b) ==> !less(a, b)
    ensures Filter(Insert(xs, x, less), p) == Filter(xs, p) + if p(x) then [x] else []
  {
    if xs == [] {
      FilterHead(x, [], p);
      assert [x] + [] == [x];
    } else if less(x, xs[0]) {
      FilterHead(x, xs, p);
      if p(x) { NoneApart(xs, x, less, p); }
    } else {
      InsertStable(xs[1..], x, less, p);
      FilterHead(xs[0], Insert(xs[1..], x, less), p);
      FilterHead(xs[0], xs[1..], p);
      assert xs == [xs[0]] + xs[1..];
    }
  }

  lemma NoneApart<T(!new)>(xs: seq<T>, x: T, less: (T, T) -> bool, p: T -> bool)
    requires Weak(less) && Sorted(xs, less) && forall a, b :: p(a) && p(b) ==> !less(a, b)
    requires xs != [] && less(x, xs[0]) && p(x)
    ensures Filter(xs, p) == []
  {
    forall i | 0 <= i < |xs| ensures !p(xs[i]) {
      if i > 0 { Apart(x, xs[i], xs[0], less); }
    }
    FilterNone(xs, p);
  }

  /** Sorting keeps elements it does not tell apart in the order they came. */
  lemma {:induction false} SortByStable<T(!new)>(xs: seq<T>, less: (T, T) -> bool, p: T -> bool)
    requires Transitive(less) && Asymmetric(less) && Weak(less) && forall a, b :: p(a) && p(b) ==> !less(a, b)
    ensures Filter(SortBy(xs, less), p) == Filter(xs, p)
  {
    if xs != [] {
      var init, last := xs[..|xs| - 1], xs[|xs| - 1];
      SortByStable(init, less, p);
      SortBySorted(init, less);
      InsertStable(SortBy(init, less), last, less, p);
      assert xs == init + [last];
      FilterAppend(init, last, p);
    }
  }
}
