/** First-expired-first-out consumption: what the two copies of the loop promise. */
module Fefo {
  import opened Wrappers
  import opened Sums
  import opened Sorting
  import opened Greedy
  import opened Stock

  /** The stock of a variant in a warehouse. */
  function Held(warehouse: WarehouseId, variant: VariantId): Batch -> int
  {
    (b: Batch) => if b.warehouse == warehouse && b.variant == variant then b.available else 0
  }

  function OnHand(s: Tables, warehouse: WarehouseId, variant: VariantId): int
  {
    Sum(s.batches, Held(warehouse, variant))
  }

  /** Check the stock of the queried batches, then drain them in the query's order. */
  function Consume(s: Tables, ids: seq<BatchId>, qty: int, cause: Cause): Result<Tables>
    requires InTable(s, ids)
  {
    if Total(Shelf(s, Live(s, ids))) < qty then Err(BadRequest) else Ok(Drain(s, ids, qty, cause))
  }

  function FefoIds(s: Tables, warehouse: WarehouseId, variant: VariantId): (ids: seq<BatchId>)
    ensures InTable(s, ids)
  {
    FefoIdsInTable(s, warehouse, variant);
    FefoOrder(s.batches, warehouse, variant)
  }

  lemma FefoIdsInTable(s: Tables, warehouse: WarehouseId, variant: VariantId)
    ensures InTable(s, FefoOrder(s.batches, warehouse, variant))
  {
    FefoOrderSorts(s.batches, warehouse, variant);
    var ids := FefoOrder(s.batches, warehouse, variant);
    assert forall i :: 0 <= i < |ids| ==> ids[i] in ids;
  }

  lemma FefoIdsMatch(s: Tables, warehouse: WarehouseId, variant: VariantId)
    ensures var ids := FefoIds(s, warehouse, variant);
      && NoRepeats(ids)
      && (forall i :: 0 <= i < |ids| ==> Matches(s.batches[ids[i]], warehouse, variant))
      && (forall id: nat :: id in ids <==> id < |s.batches| && Matches(s.batches[id], warehouse, variant))
  {
    FefoOrderSorts(s.batches, warehouse, variant);
    var ids := FefoIds(s, warehouse, variant);
    assert forall i :: 0 <= i < |ids| ==> ids[i] in ids;
  }

  function ConsumeFefo(s: Tables, warehouse: WarehouseId, variant: VariantId, qty: int, cause: Cause): Result<Tables>
  {
    Consume(s, FefoIds(s, warehouse, variant), qty, cause)
  }

  // ---------------------------------------------------------------- stock on hand

  function AvailableAt(s: Tables): BatchId -> int
  {
    (id: BatchId) => if id < |s.batches| then s.batches[id].available else 0
  }

  lemma {:induction false} ShelfSum(s: Tables, ids: seq<BatchId>)
    requires InTable(s, ids)
    ensures Total(Shelf(s, ids)) == Sum(ids, AvailableAt(s))
  {
    if ids != [] {
      assert Shelf(s, ids)[1..] == Shelf(s, ids[1..]);
      ShelfSum(s, ids[1..]);
    }
  }

  lemma {:induction false} MatchingSum(s: Tables, n: nat, warehouse: WarehouseId, variant: VariantId)
    requires n <= |s.batches|
    ensures Sum(MatchingIds(s.batches[..n], warehouse, variant), AvailableAt(s))
         == Sum(s.batches[..n], Held(warehouse, variant))
  {
    if n > 0 {
      MatchingSum(s, n - 1, warehouse, variant);
      var last: BatchId := n - 1;
      assert s.batches[..n][..n - 1] == s.batches[..n - 1];
      assert s.batches[..n] == s.batches[..n - 1] + [s.batches[n - 1]];
      SumAppend(s.batches[..n - 1], s.batches[n - 1], Held(warehouse, variant));
      SumAppend(MatchingIds(s.batches[..n - 1], warehouse, variant), last, AvailableAt(s));
    }
  }

  /** The batches the query lists hold together what the batch table holds. */
  lemma FefoShelfIsOnHand(s: Tables, warehouse: WarehouseId, variant: VariantId)
    ensures Total(Shelf(s, FefoIds(s, warehouse, variant))) == OnHand(s, warehouse, variant)
  {
    var ids := FefoIds(s, warehouse, variant);
    ShelfSum(s, ids);
    SortByPermutes(MatchingIds(s.batches, warehouse, variant), Earlier(s.batches));
    SumPermutation(ids, MatchingIds(s.batches, warehouse, variant), AvailableAt(s));
    MatchingSum(s, |s.batches|, warehouse, variant);
    assert s.batches[..|s.batches|] == s.batches;
  }

  lemma {:induction false} LiveShelf(s: Tables, ids: seq<BatchId>)
    requires Stocked(s, ids)
    ensures Total(Shelf(s, Live(s, ids))) == Total(Shelf(s, ids))
  {
    if ids != [] {
      TailAgrees(s, ids, s);
      LiveShelf(s, ids[1..]);
      if s.batches[ids[0]].available > 0 {
        assert Shelf(s, Live(s, ids))[1..] == Shelf(s, Live(s, ids[1..]));
      }
    }
  }

  /** Draining lowers the stock of the drained variant by what was taken, and no other. */
  lemma {:induction false} DrainOnHand(s: Tables, ids: seq<BatchId>, qty: int, cause: Cause,
      warehouse: WarehouseId, variant: VariantId, w: WarehouseId, v: VariantId)
    requires Stocked(s, ids)
    requires forall i :: 0 <= i < |ids| ==> Matches(s.batches[ids[i]], warehouse, variant)
    ensures OnHand(Drain(s, ids, qty, cause), w, v)
         == OnHand(s, w, v) - if (w, v) == (warehouse, variant) then Min(Max(qty, 0), Total(Shelf(s, ids))) else 0
    decreases |ids|
  {
    SumNonNegative(Shelf(s, ids), Same);
    if ids != [] && qty > 0 {
      var next, take := DrainHead(s, ids, qty, cause);
      DrainOnHand(next, ids[1..], qty - take, cause, warehouse, variant, w, v);
      SumNonNegative(Shelf(next, ids[1..]), Same);
      TakenOnHand(s, next, ids[0], take, w, v);
    }
  }

  lemma TakenOnHand(s: Tables, next: Tables, id: BatchId, take: int, w: WarehouseId, v: VariantId)
    requires id < |s.batches| && take >= 0 && next.batches == s.batches[id := Taken(s.batches[id], take)]
    ensures OnHand(next, w, v) == OnHand(s, w, v) - if Matches(s.batches[id], w, v) then take else 0
  {
    SumUpdate(s.batches, id, next.batches[id], Held(w, v));
  }

  // ---------------------------------------------------------------- main results

  lemma OnHandNonNegative(s: Tables, warehouse: WarehouseId, variant: VariantId)
    requires Books(s)
    ensures OnHand(s, warehouse, variant) >= 0
  {
    forall i | 0 <= i < |s.batches| ensures Held(warehouse, variant)(s.batches[i]) >= 0 {
      assert BatchBooks(s, i);
    }
    SumNonNegative(s.batches, Held(warehouse, variant));
  }

  lemma BooksStock(s: Tables, ids: seq<BatchId>)
    requires Books(s) && InTable(s, ids) && NoRepeats(ids)
    ensures Stocked(s, ids)
  {
    forall i | 0 <= i < |ids| ensures s.batches[ids[i]].available >= 0 {
      assert BatchBooks(s, ids[i]);
    }
  }

  /** A row consumption has taken from: less is available, never below zero; it is consumed once nothing is
      left, and everything else stays. */
  predicate TakenFrom(before: Batch, after: Batch)
  {
    && 0 <= after.available < before.available
    && after == before.(available := after.available, status := if after.available == 0 then Consumed else before.status)
  }

  /** Stock of a variant in a warehouse was taken, and from a batch only if every other one there that expires
      before it, or expires with it and is older, ends empty. Batches without expiry expire last. */
  ghost predicate TakesEarliestFirst(before: seq<Batch>, after: seq<Batch>, warehouse: WarehouseId, variant: VariantId)
  {
    && |after| == |before|
    && (forall id: nat :: id < |before| && after[id] != before[id] ==>
          before[id].warehouse == warehouse && before[id].variant == variant && TakenFrom(before[id], after[id]))
    && (forall i: nat, j: nat :: i < |before| && j < |before| && after[j] != before[j]
          && before[i].warehouse == warehouse && before[i].variant == variant
          && ((before[i].expiry.Some? && (before[j].expiry.None? || before[i].expiry.value < before[j].expiry.value))
              || (before[i].expiry == before[j].expiry && i < j))
          ==> after[i].available == 0)
  }

  /** Consumption succeeds exactly when the stock suffices, takes exactly the quantity, and takes the earliest
      expiry first. */
  lemma FefoConsumption(s: Tables, warehouse: WarehouseId, variant: VariantId, qty: nat, cause: Cause)
    requires Books(s)
    ensures var r := ConsumeFefo(s, warehouse, variant, qty, cause);
      && (r.Ok? <==> OnHand(s, warehouse, variant) >= qty)
      && (r.Ok? ==>
            && KeepsBooks(s, r.value)
            && OnHand(r.value, warehouse, variant) == OnHand(s, warehouse, variant) - qty
            && TakesEarliestFirst(s.batches, r.value.batches, warehouse, variant))
  {
    var ids := FefoIds(s, warehouse, variant);
    FefoIdsMatch(s, warehouse, variant);
    BooksStock(s, ids);
    FefoShelfIsOnHand(s, warehouse, variant);
    LiveShelf(s, ids);
    if OnHand(s, warehouse, variant) >= qty {
      DrainKeepsBooks(s, ids, qty, cause);
      DrainOnHand(s, ids, qty, cause, warehouse, variant, warehouse, variant);
      DrainTakesEarliestFirst(s, warehouse, variant, qty, cause);
      assert ConsumeFefo(s, warehouse, variant, qty, cause) == Ok(Drain(s, ids, qty, cause));
    }
  }

  lemma DrainTakesEarliestFirst(s: Tables, warehouse: WarehouseId, variant: VariantId, qty: nat, cause: Cause)
    requires Books(s)
    ensures TakesEarliestFirst(s.batches, Drain(s, FefoIds(s, warehouse, variant), qty, cause).batches, warehouse, variant)
  {
    var ids := FefoIds(s, warehouse, variant);
    var after := Drain(s, ids, qty, cause);
    FefoIdsMatch(s, warehouse, variant);
    BooksStock(s, ids);
    forall id: nat | id < |s.batches| && after.batches[id] != s.batches[id]
      ensures Matches(s.batches[id], warehouse, variant) && TakenFrom(s.batches[id], after.batches[id])
    {
      DrainRow(s, ids, qty, cause, id);
    }
    forall i: nat, j: nat | i < |s.batches| && j < |s.batches| && after.batches[j] != s.batches[j]
        && Matches(s.batches[i], warehouse, variant)
        && ((s.batches[i].expiry.Some? && (s.batches[j].expiry.None? || s.batches[i].expiry.value < s.batches[j].expiry.value))
            || (s.batches[i].expiry == s.batches[j].expiry && i < j))
      ensures after.batches[i].available == 0
    {
      assert Earlier(s.batches)(i, j);
      DrainEmptiesEarlier(s, warehouse, variant, qty, cause, i, j);
    }
  }

  lemma DrainRow(s: Tables, ids: seq<BatchId>, qty: nat, cause: Cause, id: nat)
    requires Stocked(s, ids) && id < |s.batches| && Drain(s, ids, qty, cause).batches[id] != s.batches[id]
    ensures id in ids && TakenFrom(s.batches[id], Drain(s, ids, qty, cause).batches[id])
  {
    if id !in ids { DrainFrame(s, ids, qty, cause, id); }
    var k :| 0 <= k < |ids| && ids[k] == id;
    FillIsGreedy(Shelf(s, ids), qty);
    DrainShare(s, ids, qty, cause, k);
  }

  lemma DrainEmptiesEarlier(s: Tables, warehouse: WarehouseId, variant: VariantId, qty: nat, cause: Cause, i: nat, j: nat)
    requires Books(s) && i < |s.batches| && j < |s.batches| && Matches(s.batches[i], warehouse, variant)
    requires Earlier(s.batches)(i, j)
    requires Drain(s, FefoIds(s, warehouse, variant), qty, cause).batches[j] != s.batches[j]
    ensures Drain(s, FefoIds(s, warehouse, variant), qty, cause).batches[i].available == 0
  {
    var ids := FefoIds(s, warehouse, variant);
    FefoIdsMatch(s, warehouse, variant);
    BooksStock(s, ids);
    if j !in ids { DrainFrame(s, ids, qty, cause, j); }
    var a, b := EarlierListed(s, warehouse, variant, i, j);
    DrainInOrder(s, ids, qty, cause, a, b);
  }

  /** Of two listed batches the earlier is listed first. */
  lemma EarlierListed(s: Tables, warehouse: WarehouseId, variant: VariantId, i: nat, j: nat) returns (a: nat, b: nat)
    requires i in FefoIds(s, warehouse, variant) && j in FefoIds(s, warehouse, variant) && Earlier(s.batches)(i, j)
    ensures var ids := FefoIds(s, warehouse, variant); a < b < |ids| && ids[a] == i && ids[b] == j
  {
    var ids := FefoIds(s, warehouse, variant);
    FefoOrderSorts(s.batches, warehouse, variant);
    a :| a < |ids| && ids[a] == i;
    b :| b < |ids| && ids[b] == j;
  }

  lemma DrainInOrder(s: Tables, ids: seq<BatchId>, qty: nat, cause: Cause, a: nat, b: nat)
    requires Stocked(s, ids) && a < b < |ids|
    requires Drain(s, ids, qty, cause).batches[ids[b]] != s.batches[ids[b]]
    ensures Drain(s, ids, qty, cause).batches[ids[a]].available == 0
  {
    FillIsGreedy(Shelf(s, ids), qty);
    DrainShare(s, ids, qty, cause, a);
    DrainShare(s, ids, qty, cause, b);
  }

  /** Batches stay where they are. */
  ghost predicate SamePlaces(s: Tables, after: Tables)
  {
    |s.batches| <= |after.batches| && forall id: nat :: id < |s.batches| ==>
      after.batches[id].warehouse == s.batches[id].warehouse && after.batches[id].variant == s.batches[id].variant
  }

  ghost predicate SameShape(a: Tables, b: Tables)
  {
    |a.batches| == |b.batches| && forall id: nat :: id < |a.batches| ==>
      && a.batches[id].expiry == b.batches[id].expiry
      && a.batches[id].warehouse == b.batches[id].warehouse
      && a.batches[id].variant == b.batches[id].variant
  }

  lemma {:induction false} SameMatching(a: seq<Batch>, b: seq<Batch>, warehouse: WarehouseId, variant: VariantId)
    requires |a| == |b| && forall i :: 0 <= i < |a| ==> a[i].warehouse == b[i].warehouse && a[i].variant == b[i].variant
    ensures MatchingIds(a, warehouse, variant) == MatchingIds(b, warehouse, variant)
  {
    if a != [] { SameMatching(a[..|a| - 1], b[..|b| - 1], warehouse, variant); }
  }

  lemma SameFefoIds(a: Tables, b: Tables, warehouse: WarehouseId, variant: VariantId)
    requires SameShape(a, b)
    ensures FefoIds(a, warehouse, variant) == FefoIds(b, warehouse, variant)
  {
    SameMatching(a.batches, b.batches, warehouse, variant);
    SortByAgree(MatchingIds(a.batches, warehouse, variant), Earlier(a.batches), Earlier(b.batches));
  }

  /** Consuming p and later q is consuming p + q: it succeeds together and leaves the same batches. */
  lemma FefoSplit(s: Tables, warehouse: WarehouseId, variant: VariantId, p: nat, q: nat, cause: Cause, cause': Cause)
    requires Books(s)
    ensures var once := ConsumeFefo(s, warehouse, variant, p + q, cause);
      var first := ConsumeFefo(s, warehouse, variant, p, cause);
      && (once.Ok? <==> first.Ok? && ConsumeFefo(first.value, warehouse, variant, q, cause').Ok?)
      && (once.Ok? ==> ConsumeFefo(first.value, warehouse, variant, q, cause').value.batches == once.value.batches)
  {
    FefoConsumption(s, warehouse, variant, p + q, cause);
    FefoConsumption(s, warehouse, variant, p, cause);
    var first := ConsumeFefo(s, warehouse, variant, p, cause);
    if first.Ok? {
      FefoConsumption(first.value, warehouse, variant, q, cause');
      var ids := FefoIds(s, warehouse, variant);
      FefoIdsMatch(s, warehouse, variant);
      BooksStock(s, ids);
      DrainShape(s, ids, p, cause);
      SameFefoIds(s, first.value, warehouse, variant);
      DrainTwice(s, ids, p, q, cause, cause');
    }
  }

  lemma DrainShape(s: Tables, ids: seq<BatchId>, qty: int, cause: Cause)
    requires Stocked(s, ids)
    ensures SameShape(s, Drain(s, ids, qty, cause))
  {
    DrainIsFill(s, ids, qty, cause);
    var after := Drain(s, ids, qty, cause);
    forall id: nat | id < |s.batches|
      ensures after.batches[id].expiry == s.batches[id].expiry && after.batches[id].warehouse == s.batches[id].warehouse
           && after.batches[id].variant == s.batches[id].variant
    {
      if id in ids { var k :| 0 <= k < |ids| && ids[k] == id; }
    }
  }

  lemma DrainLeaves(s: Tables, ids: seq<BatchId>, qty: int, cause: Cause)
    requires Stocked(s, ids)
    ensures Stocked(Drain(s, ids, qty, cause), ids)
    ensures Shelf(Drain(s, ids, qty, cause), ids) == Minus(Shelf(s, ids), Fill(Shelf(s, ids), qty))
  {
    var share := Fill(Shelf(s, ids), qty);
    FillIsGreedy(Shelf(s, ids), qty);
    var after := Drain(s, ids, qty, cause);
    forall k | 0 <= k < |ids| ensures after.batches[ids[k]].available == Shelf(s, ids)[k] - share[k] {
      DrainShare(s, ids, qty, cause, k);
    }
  }

  lemma DrainTwice(s: Tables, ids: seq<BatchId>, p: nat, q: nat, cause: Cause, cause': Cause)
    requires Stocked(s, ids)
    ensures InTable(Drain(s, ids, p, cause), ids)
    ensures Drain(Drain(s, ids, p, cause), ids, q, cause').batches == Drain(s, ids, p + q, cause).batches
  {
    var once, twice := Drain(s, ids, p + q, cause), Drain(Drain(s, ids, p, cause), ids, q, cause');
    forall id: nat | id < |s.batches| ensures twice.batches[id] == once.batches[id] {
      DrainTwiceRow(s, ids, p, q, cause, cause', id);
    }
  }

  lemma DrainTwiceRow(s: Tables, ids: seq<BatchId>, p: nat, q: nat, cause: Cause, cause': Cause, id: nat)
    requires Stocked(s, ids) && id < |s.batches|
    ensures InTable(Drain(s, ids, p, cause), ids)
    ensures Drain(Drain(s, ids, p, cause), ids, q, cause').batches[id] == Drain(s, ids, p + q, cause).batches[id]
  {
    if id in ids {
      var k :| 0 <= k < |ids| && ids[k] == id;
      DrainTwiceAt(s, ids, p, q, cause, cause', k);
    } else {
      DrainFrame(s, ids, p + q, cause, id);
      DrainFrame(s, ids, p, cause, id);
      DrainFrame(Drain(s, ids, p, cause), ids, q, cause', id);
    }
  }

  lemma DrainTwiceAt(s: Tables, ids: seq<BatchId>, p: nat, q: nat, cause: Cause, cause': Cause, k: nat)
    requires Stocked(s, ids) && k < |ids|
    ensures InTable(Drain(s, ids, p, cause), ids)
    ensures Drain(Drain(s, ids, p, cause), ids, q, cause').batches[ids[k]] == Drain(s, ids, p + q, cause).batches[ids[k]]
  {
    DrainLeaves(s, ids, p, cause);
    DrainShare(s, ids, p + q, cause, k);
    DrainShare(s, ids, p, cause, k);
    DrainShare(Drain(s, ids, p, cause), ids, q, cause', k);
    TakenInTwo(Shelf(s, ids), s.batches[ids[k]], p, q, k);
  }

  lemma TakenInTwo(shelf: seq<int>, b: Batch, p: nat, q: nat, k: nat)
    requires NonNegative(shelf) && k < |shelf| && shelf[k] == b.available
    ensures Taken(Taken(b, Fill(shelf, p)[k]), Fill(Minus(shelf, Fill(shelf, p)), q)[k])
         == Taken(b, Fill(shelf, p + q)[k])
  {
    FillIsGreedy(shelf, p);
    FillIsGreedy(Minus(shelf, Fill(shelf, p)), q);
    FillTwice(shelf, p, q);
    TakenTwice(b, Fill(shelf, p)[k], Fill(Minus(shelf, Fill(shelf, p)), q)[k]);
  }

  lemma TakenTwice(b: Batch, p: int, q: int)
    requires 0 <= p <= b.available && 0 <= q <= b.available - p
    ensures Taken(Taken(b, p), q) == Taken(b, p + q)
  {
  }
}
