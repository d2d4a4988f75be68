/** The accumulate-into-a-Map idiom the services share: `map.get(key) ?? zero`, change, `map.set`.
    A JavaScript Map iterates in insertion order, so it is modelled as rows with distinct keys. */
module Tally {
  import opened Sums

  datatype Row<+K, +V> = Row(key: K, value: V)

  function Lookup<K(==), V>(rows: seq<Row<K, V>>, key: K, zero: V): V
  {
    if rows == [] then zero
    else if rows[0].key == key then rows[0].value
    else Lookup(rows[1..], key, zero)
  }

  function Upsert<K(==), V>(rows: seq<Row<K, V>>, key: K, value: V): seq<Row<K, V>>
  {
    if rows == [] then [Row(key, value)]
    else if rows[0].key == key then [Row(key, value)] + rows[1..]
    else [rows[0]] + Upsert(rows[1..], key, value)
  }

  /** One pass of a service's accumulating loop over `xs`. */
  function Group<T, K(==), V>(xs: seq<T>, key: T -> K, zero: V, add: (V, T) -> V): seq<Row<K, V>>
  {
    if xs == [] then []
    else
      var rows := Group(xs[..|xs| - 1], key, zero, add);
      var x := xs[|xs| - 1];
      Upsert(rows, key(x), add(Lookup(rows, key(x), zero), x))
  }

  lemma GroupNext<T, K, V>(xs: seq<T>, x: T, key: T -> K, zero: V, add: (V, T) -> V)
    ensures Group(xs + [x], key, zero, add)
         == var rows := Group(xs, key, zero, add); Upsert(rows, key(x), add(Lookup(rows, key(x), zero), x))
  {
    assert (xs + [x])[..|xs|] == xs;
  }

  ghost predicate Distinct<K, V>(rows: seq<Row<K, V>>)
  {
    forall i, j :: 0 <= i < j < |rows| ==> rows[i].key != rows[j].key
  }

  ghost predicate HasKey<K, V>(rows: seq<Row<K, V>>, key: K)
  {
    exists i :: 0 <= i < |rows| && rows[i].key == key
  }

  /** Weighs a group by `w` when its key is selected. */
  function Weighted<K, V>(select: K -> bool, w: V -> int): Row<K, V> -> int
  {
    (r: Row<K, V>) => if select(r.key) then w(r.value) else 0
  }

  /** Weighs a source row by `delta` when its key is selected. */
  function Where<T, K>(select: K -> bool, key: T -> K, delta: T -> int): T -> int
  {
    (x: T) => if select(key(x)) then delta(x) else 0
  }

  function Is<K(==)>(key: K): K -> bool { (k: K) => k == key }

  function Any<K>(): K -> bool { (k: K) => true }

  lemma {:induction false} UpsertKeys<K, V>(rows: seq<Row<K, V>>, key: K, value: V, other: K)
    ensures HasKey(Upsert(rows, key, value), other) <==> other == key || HasKey(rows, other)
  {
    var after := Upsert(rows, key, value);
    if rows == [] {
      assert after[0].key == key;
    } else if rows[0].key == key {
      assert after[0].key == key;
      assert forall i :: 0 <= i < |rows| ==> after[i].key == rows[i].key;
      if HasKey(rows, other) {
        var i :| 0 <= i < |rows| && rows[i].key == other;
        assert after[i].key == other;
      }
    } else {
      UpsertKeys(rows[1..], key, value, other);
      var tail := Upsert(rows[1..], key, value);
      assert after == [rows[0]] + tail;
      if HasKey(tail, other) {
        var i :| 0 <= i < |tail| && tail[i].key == other;
        assert after[i + 1].key == other;
      }
      if HasKey(after, other) {
        var i :| 0 <= i < |after| && after[i].key == other;
        if i > 0 { assert tail[i - 1].key == other; }
      }
      if HasKey(rows, other) {
        var i :| 0 <= i < |rows| && rows[i].key == other;
        if i == 0 { assert after[0].key == other; } else { assert rows[1..][i - 1].key == other; }
      }
      if HasKey(rows[1..], other) {
        var i :| 0 <= i < |rows[1..]| && rows[1..][i].key == other;
        assert rows[i + 1].key == other;
      }
    }
  }

  lemma {:induction false} UpsertDistinct<K, V>(rows: seq<Row<K, V>>, key: K, value: V)
    requires Distinct(rows)
    ensures Distinct(Upsert(rows, key, value))
  {
    if rows != [] && rows[0].key != key {
      var tail := Upsert(rows[1..], key, value);
      UpsertDistinct(rows[1..], key, value);
      UpsertKeys(rows[1..], key, value, rows[0].key);
      assert !HasKey(rows[1..], rows[0].key);
      assert forall j :: 0 <= j < |tail| ==> tail[j].key != rows[0].key;
    }
  }

  lemma {:induction false} UpsertSum<K, V>(rows: seq<Row<K, V>>, key: K, value: V, zero: V, select: K -> bool, w: V -> int)
    requires w(zero) == 0
    ensures Sum(Upsert(rows, key, value), Weighted(select, w))
         == Sum(rows, Weighted(select, w)) + if select(key) then w(value) - w(Lookup(rows, key, zero)) else 0
  {
    if rows != [] && rows[0].key != key {
      UpsertSum(rows[1..], key, value, zero, select, w);
      assert Upsert(rows, key, value)[1..] == Upsert(rows[1..], key, value);
    } else if rows != [] {
      assert Upsert(rows, key, value)[1..] == rows[1..];
    }
  }

  lemma {:induction false} GroupDistinct<T, K, V>(xs: seq<T>, key: T -> K, zero: V, add: (V, T) -> V)
    ensures Distinct(Group(xs, key, zero, add))
  {
    if xs != [] {
      var rows := Group(xs[..|xs| - 1], key, zero, add);
      GroupDistinct(xs[..|xs| - 1], key, zero, add);
      var x := xs[|xs| - 1];
      UpsertDistinct(rows, key(x), add(Lookup(rows, key(x), zero), x));
    }
  }

  /** The exchange law: summing the groups of any selection of keys gives what summing the source
      rows of that selection gives. */
  lemma {:induction false} GroupSum<T, K, V(!new)>(xs: seq<T>, key: T -> K, zero: V, add: (V, T) -> V,
      select: K -> bool, w: V -> int, delta: T -> int)
    requires w(zero) == 0
    requires forall i, v :: 0 <= i < |xs| ==> w(add(v, xs[i])) == w(v) + delta(xs[i])
    ensures Sum(Group(xs, key, zero, add), Weighted(select, w)) == Sum(xs, Where(select, key, delta))
  {
    if xs != [] {
      var init, x := xs[..|xs| - 1], xs[|xs| - 1];
      var rows := Group(init, key, zero, add);
      var before := Lookup(rows, key(x), zero);
      forall i, v | 0 <= i < |init| ensures w(add(v, init[i])) == w(v) + delta(init[i]) {
        assert init[i] == xs[i];
      }
      GroupSum(init, key, zero, add, select, w, delta);
      UpsertSum(rows, key(x), add(before, x), zero, select, w);
      assert xs == init + [x];
      SumAppend(init, x, Where(select, key, delta));
    }
  }

  /** With distinct keys, the groups of one key weigh what looking the key up gives. */
  lemma {:induction false} LookupSum<K, V>(rows: seq<Row<K, V>>, key: K, zero: V, w: V -> int)
    requires Distinct(rows) && w(zero) == 0
    ensures Sum(rows, Weighted(Is(key), w)) == w(Lookup(rows, key, zero))
  {
    if rows != [] {
      LookupSum(rows[1..], key, zero, w);
      if rows[0].key == key {
        forall i | 0 <= i < |rows[1..]| ensures rows[1..][i].key != key {
          assert rows[1..][i] == rows[i + 1];
        }
        LookupAbsent(rows[1..], key, zero);
      }
    }
  }

  lemma {:induction false} LookupUpsert<K, V>(rows: seq<Row<K, V>>, key: K, value: V, other: K, zero: V)
    ensures Lookup(Upsert(rows, key, value), other, zero) == if other == key then value else Lookup(rows, other, zero)
  {
    if rows != [] && rows[0].key != key { LookupUpsert(rows[1..], key, value, other, zero); }
  }

  lemma {:induction false} LookupAbsent<K, V>(rows: seq<Row<K, V>>, key: K, zero: V)
    requires forall i :: 0 <= i < |rows| ==> rows[i].key != key
    ensures Lookup(rows, key, zero) == zero
  {
    if rows != [] { LookupAbsent(rows[1..], key, zero); }
  }

  lemma {:induction false} LookupAt<K, V>(rows: seq<Row<K, V>>, i: nat, zero: V)
    requires Distinct(rows) && i < |rows|
    ensures Lookup(rows, rows[i].key, zero) == rows[i].value
  {
    if i > 0 { LookupAt(rows[1..], i - 1, zero); }
  }

  /** Every looked-up group holds exactly the weight of the source rows carrying its key. */
  lemma GroupLookup<T, K, V(!new)>(xs: seq<T>, key: T -> K, zero: V, add: (V, T) -> V,
      k: K, w: V -> int, delta: T -> int)
    requires w(zero) == 0
    requires forall i, v :: 0 <= i < |xs| ==> w(add(v, xs[i])) == w(v) + delta(xs[i])
    ensures w(Lookup(Group(xs, key, zero, add), k, zero)) == Sum(xs, Where(Is(k), key, delta))
  {
    GroupSum(xs, key, zero, add, Is(k), w, delta);
    GroupDistinct(xs, key, zero, add);
    LookupSum(Group(xs, key, zero, add), k, zero, w);
  }

  /** Every group's key was carried by some source row. */
  lemma {:induction false} GroupKey<T, K, V>(xs: seq<T>, key: T -> K, zero: V, add: (V, T) -> V, k: K) returns (i: nat)
    requires HasKey(Group(xs, key, zero, add), k)
    ensures i < |xs| && key(xs[i]) == k
  {
    var rows := Group(xs[..|xs| - 1], key, zero, add);
    i := |xs| - 1;
    if key(xs[i]) != k {
      UpsertKeys(rows, key(xs[i]), add(Lookup(rows, key(xs[i]), zero), xs[i]), k);
      i := GroupKey(xs[..|xs| - 1], key, zero, add, k);
    }
  }

  lemma {:induction false} LookupFound<K, V>(rows: seq<Row<K, V>>, key: K, zero: V) returns (i: nat)
    requires Lookup(rows, key, zero) != zero
    ensures i < |rows| && rows[i].key == key && rows[i].value == Lookup(rows, key, zero)
  {
    if rows[0].key == key { i := 0; } else {
      var j := LookupFound(rows[1..], key, zero);
      i := j + 1;
    }
  }
}
