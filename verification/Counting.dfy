/** What preparing an adjustment and posting it later achieve together: each counted target moves by the
    difference found when it was prepared, and counting with nothing in between restores the shelf. */
module Counting {
  import opened Wrappers
  import opened Sums
  import opened Sorting
  import opened Greedy
  import opened Stock
  import opened Fefo
  import opened Inventory

  /** What a count's line moves when it is posted in a warehouse: the batch it names, wherever that lies, or
      all stock of its variant in the warehouse. */
  function Target(s: Tables, warehouse: WarehouseId, c: Count): int
  {
    if Known(s, c.batch) then s.batches[c.batch.value].available else OnHand(s, warehouse, c.variant)
  }

  /** A batch a count names is in the table. */
  predicate Stored(s: Tables, c: Count)
  {
    c.batch.Some? ==> Known(s, c.batch)
  }

  /** Two counts move some batch in common. */
  predicate Overlap(s: Tables, warehouse: WarehouseId, c: Count, d: Count)
    requires Stored(s, c) && Stored(s, d)
  {
    if c.batch.Some? && d.batch.Some? then c.batch == d.batch
    else if c.batch.Some? then Matches(s.batches[c.batch.value], warehouse, d.variant)
    else if d.batch.Some? then Matches(s.batches[d.batch.value], warehouse, c.variant)
    else c.variant == d.variant
  }

  /** Each count names stock of its own. */
  ghost predicate Separate(s: Tables, warehouse: WarehouseId, counts: seq<Count>)
  {
    && (forall i :: 0 <= i < |counts| ==> Stored(s, counts[i]))
    && (forall i, j :: 0 <= i < j < |counts| ==> !Overlap(s, warehouse, counts[i], counts[j]))
  }

  /** `after` moves the stock `c` counts by `diff`, and moves no separate stock. */
  ghost predicate MovesOnly(s: Tables, after: Tables, warehouse: WarehouseId, c: Count, diff: int)
    requires Stored(s, c)
  {
    && SamePlaces(s, after)
    && Target(after, warehouse, c) == Target(s, warehouse, c) + diff
    && forall d: Count :: Stored(s, d) && !Overlap(s, warehouse, c, d) ==>
         Target(after, warehouse, d) == Target(s, warehouse, d)
  }

  /** Where the stock a count moves lies. */
  function Place(s: Tables, warehouse: WarehouseId, c: Count): (WarehouseId, VariantId)
    requires Stored(s, c)
  {
    if c.batch.Some? then (s.batches[c.batch.value].warehouse, s.batches[c.batch.value].variant) else (warehouse, c.variant)
  }

  /** Enough for MovesOnly: stock moves at one place, and batch by batch only what `c` counts. */
  lemma MovesOnlyFrom(s: Tables, after: Tables, warehouse: WarehouseId, c: Count, diff: int)
    requires SamePlaces(s, after) && Stored(s, c)
    requires forall v: VariantId ::
      OnHand(after, warehouse, v) == OnHand(s, warehouse, v) + if (warehouse, v) == Place(s, warehouse, c) then diff else 0
    requires forall id: nat :: id < |s.batches| ==>
      || after.batches[id].available == s.batches[id].available
      || (if c.batch.Some? then c.batch.value == id else Matches(s.batches[id], warehouse, c.variant))
    requires c.batch.Some? ==> after.batches[c.batch.value].available == s.batches[c.batch.value].available + diff
    ensures MovesOnly(s, after, warehouse, c, diff)
  {
  }

  lemma PositiveEffect(s: Tables, adj: Adjustment, c: Count, item: AdjustmentItem)
    requires item.diff > 0 && Stored(s, c)
    requires item.variant == c.variant && item.batch == c.batch
    ensures MovesOnly(s, ApplyPositive(s, adj, item, item.diff), adj.warehouse, c, item.diff)
  {
    var w, after := adj.warehouse, ApplyPositive(s, adj, item, item.diff);
    forall v: VariantId
      ensures OnHand(after, w, v) == OnHand(s, w, v) + if (w, v) == Place(s, w, c) then item.diff else 0
    {
      if c.batch.Some? {
        SumUpdate(s.batches, c.batch.value, after.batches[c.batch.value], Held(w, v));
      } else {
        SumAppend(s.batches, after.batches[|s.batches|], Held(w, v));
      }
    }
    MovesOnlyFrom(s, after, w, c, item.diff);
  }

  lemma NegativeEffect(s: Tables, adj: Adjustment, c: Count, item: AdjustmentItem)
    requires Books(s) && item.diff < 0 && Stored(s, c)
    requires item.variant == c.variant && item.batch == c.batch
    ensures var r := ApplyNegative(s, adj, item, -item.diff);
      && (r.Ok? <==> Target(s, adj.warehouse, c) + item.diff >= 0)
      && (r.Ok? ==> MovesOnly(s, r.value, adj.warehouse, c, item.diff))
  {
    var ids := NegativeIds(s, adj, item);
    var cause := Cause(AdjustmentOut, adj.id, adj.warehouse, item.variant);
    TargetShelf(s, adj, c, item);
    BooksStock(s, ids);
    ConsumeMovesOnly(s, adj.warehouse, c, ids, -item.diff, cause);
    assert ApplyNegative(s, adj, item, -item.diff) == Consume(s, ids, -item.diff, cause);
  }

  lemma ConsumeMovesOnly(s: Tables, w: WarehouseId, c: Count, ids: seq<BatchId>, qty: nat, cause: Cause)
    requires Stocked(s, ids) && Stored(s, c)
    requires forall i :: 0 <= i < |ids| ==> Matches(s.batches[ids[i]], Place(s, w, c).0, Place(s, w, c).1)
    requires c.batch.Some? ==> ids == [c.batch.value]
    requires Total(Shelf(s, ids)) == Target(s, w, c)
    ensures var r := Consume(s, ids, qty, cause);
      && (r.Ok? <==> Target(s, w, c) - qty >= 0)
      && (r.Ok? ==> MovesOnly(s, r.value, w, c, 0 - qty))
  {
    LiveShelf(s, ids);
    if Total(Shelf(s, ids)) >= qty {
      DrainMovesOnly(s, w, c, ids, qty, cause);
      assert Consume(s, ids, qty, cause) == Ok(Drain(s, ids, qty, cause));
    }
  }

  lemma DrainMovesOnly(s: Tables, w: WarehouseId, c: Count, ids: seq<BatchId>, qty: nat, cause: Cause)
    requires Stocked(s, ids) && Stored(s, c) && Total(Shelf(s, ids)) >= qty
    requires forall i :: 0 <= i < |ids| ==> Matches(s.batches[ids[i]], Place(s, w, c).0, Place(s, w, c).1)
    requires c.batch.Some? ==> ids == [c.batch.value]
    ensures MovesOnly(s, Drain(s, ids, qty, cause), w, c, 0 - qty)
  {
    var after, place := Drain(s, ids, qty, cause), Place(s, w, c);
    forall v: VariantId ensures OnHand(after, w, v) == OnHand(s, w, v) - if (w, v) == place then qty else 0 {
      DrainOnHand(s, ids, qty, cause, place.0, place.1, w, v);
    }
    DrainShape(s, ids, qty, cause);
    forall id: nat | id < |s.batches| ensures after.batches[id].available == s.batches[id].available || id in ids {
      if id !in ids { DrainFrame(s, ids, qty, cause, id); }
    }
    if c.batch.Some? { DrainOne(s, c.batch.value, qty, cause); }
    MovesOnlyFrom(s, after, w, c, 0 - qty);
  }

  lemma DrainOne(s: Tables, id: BatchId, qty: nat, cause: Cause)
    requires Stocked(s, [id]) && Total(Shelf(s, [id])) >= qty
    ensures Drain(s, [id], qty, cause).batches[id].available == s.batches[id].available - qty
  {
    var held := s.batches[id].available;
    assert Shelf(s, [id]) == [held] && [held][1..] == [] && [id][1..] == [];
    assert Total([held]) == Sum([held], Same) == Same(held) + Sum([held][1..], Same);
    if qty > 0 {
      var next := Issue(s, id, qty, cause);
      assert Drain(next, [], 0, cause) == next;
      assert Drain(s, [id], qty, cause) == Drain(next, [id][1..], 0, cause);
    }
  }

  /** What a negative adjustment may take from is what its count's line moves. */
  lemma TargetShelf(s: Tables, adj: Adjustment, c: Count, item: AdjustmentItem)
    requires Stored(s, c) && item.variant == c.variant && item.batch == c.batch
    ensures Total(Shelf(s, NegativeIds(s, adj, item))) == Target(s, adj.warehouse, c)
    ensures var ids := NegativeIds(s, adj, item);
      var place := Place(s, adj.warehouse, c);
      && NoRepeats(ids)
      && (forall i :: 0 <= i < |ids| ==> Matches(s.batches[ids[i]], place.0, place.1))
      && (c.batch.Some? ==> ids == [c.batch.value])
  {
    var ids := NegativeIds(s, adj, item);
    if c.batch.None? {
      FefoIdsMatch(s, adj.warehouse, c.variant);
      FefoShelfIsOnHand(s, adj.warehouse, c.variant);
    } else {
      assert ids == [c.batch.value] && Shelf(s, ids) == [Target(s, adj.warehouse, c)];
      assert Sum(Shelf(s, ids)[1..], Same) == 0;
    }
  }

  /** Applying one count's difference succeeds unless it would go below zero, and then moves just that. */
  lemma ApplyItemEffect(s: Tables, adj: Adjustment, c: Count, item: AdjustmentItem)
    requires Books(s) && Stored(s, c)
    requires item.variant == c.variant && item.batch == c.batch
    ensures var r := ApplyItem(s, adj, item);
      && (r.Ok? <==> Target(s, adj.warehouse, c) + item.diff >= 0)
      && (r.Ok? ==> MovesOnly(s, r.value, adj.warehouse, c, item.diff))
  {
    TargetNonNegative(s, adj.warehouse, c);
    if item.diff > 0 {
      PositiveEffect(s, adj, c, item);
      assert ApplyItem(s, adj, item) == Ok(ApplyPositive(s, adj, item, item.diff));
    } else if item.diff < 0 {
      NegativeEffect(s, adj, c, item);
      assert ApplyItem(s, adj, item) == ApplyNegative(s, adj, item, -item.diff);
    } else {
      assert MovesOnly(s, s, adj.warehouse, c, 0);
    }
  }

  lemma TargetNonNegative(s: Tables, warehouse: WarehouseId, c: Count)
    requires Books(s)
    ensures Target(s, warehouse, c) >= 0
  {
    OnHandNonNegative(s, warehouse, c.variant);
    assert Known(s, c.batch) ==> BatchBooks(s, c.batch.value);
  }

  /** A line naming a batch that is not in the table can only add: it opens a batch in the adjustment's
      warehouse, and succeeds exactly when it takes nothing away. */
  lemma UnknownBatchOnlyAdds(s: Tables, adj: Adjustment, item: AdjustmentItem)
    requires item.batch.Some? && !Known(s, item.batch)
    ensures ApplyItem(s, adj, item).Ok? <==> item.diff >= 0
    ensures item.diff >= 0 ==>
      OnHand(ApplyItem(s, adj, item).value, adj.warehouse, item.variant) == OnHand(s, adj.warehouse, item.variant) + item.diff
  {
    if item.diff > 0 {
      var after := ApplyPositive(s, adj, item, item.diff);
      SumAppend(s.batches, after.batches[|s.batches|], Held(adj.warehouse, item.variant));
    } else if item.diff < 0 {
      assert NegativeIds(s, adj, item) == [] && Live(s, []) == [] && Shelf(s, []) == [];
    }
  }

  // ---------------------------------------------------------------- prepared, then posted

  /** Where a count prepared on (s, w) leaves its target when posted on `now` in a warehouse. */
  function Outcome(s: Tables, w: WarehouseId, now: Tables, warehouse: WarehouseId, c: Count): int
  {
    Target(now, warehouse, c) + c.physical - SystemQty(s, w, c)
  }

  /** Counts prepared on one state and warehouse, posted on any later state and in any warehouse: posting
      succeeds exactly when no target would go below zero, moves each target by the difference found when
      it was prepared, and so meets a count exactly when what it moves is what was then in the system. */
  lemma PostingPreparedCounts(s: Tables, w: WarehouseId, now: Tables, adj: Adjustment, counts: seq<Count>)
    requires Books(now) && Separate(now, adj.warehouse, counts)
    ensures var posted := ApplyItems(now, adj, PreparedItems(s, w, counts));
      && (posted.Ok? <==> forall i :: 0 <= i < |counts| ==> Outcome(s, w, now, adj.warehouse, counts[i]) >= 0)
      && (posted.Ok? ==> KeepsBooks(now, posted.value))
      && (posted.Ok? ==> forall i :: 0 <= i < |counts| ==>
            && Target(posted.value, adj.warehouse, counts[i]) == Outcome(s, w, now, adj.warehouse, counts[i])
            && (Target(posted.value, adj.warehouse, counts[i]) == counts[i].physical
                <==> Target(now, adj.warehouse, counts[i]) == SystemQty(s, w, counts[i])))
  {
    PostingFrom(s, w, now, now, adj, counts, 0);
    assert PreparedItems(s, w, counts)[0..] == PreparedItems(s, w, counts);
  }

  /** The same from the n-th item on, when the first n targets have moved and the others have not. */
  lemma {:induction false} PostingFrom(s: Tables, w: WarehouseId, start: Tables, now: Tables, adj: Adjustment, counts: seq<Count>, n: nat)
    requires n <= |counts| && Books(now) && Separate(now, adj.warehouse, counts)
    requires forall i :: 0 <= i < n ==> Target(now, adj.warehouse, counts[i]) == Outcome(s, w, start, adj.warehouse, counts[i])
    requires forall i :: n <= i < |counts| ==> Target(now, adj.warehouse, counts[i]) == Target(start, adj.warehouse, counts[i])
    ensures var posted := ApplyItems(now, adj, PreparedItems(s, w, counts)[n..]);
      && (posted.Ok? <==> forall i :: n <= i < |counts| ==> Outcome(s, w, start, adj.warehouse, counts[i]) >= 0)
      && (posted.Ok? ==>
            && KeepsBooks(now, posted.value)
            && forall i :: 0 <= i < |counts| ==>
                 Target(posted.value, adj.warehouse, counts[i]) == Outcome(s, w, start, adj.warehouse, counts[i]))
    decreases |counts| - n
  {
    var items := PreparedItems(s, w, counts);
    if n < |counts| {
      ApplyItemEffect(now, adj, counts[n], items[n]);
      assert items[n..][1..] == items[n + 1..];
      var r := ApplyItem(now, adj, items[n]);
      if r.Ok? {
        ApplyItemKeepsBooks(now, adj, items[n]);
        OthersStay(now, r.value, adj.warehouse, counts, n, items[n].diff);
        PostingFrom(s, w, start, r.value, adj, counts, n + 1);
      }
    }
  }

  lemma OthersStay(s: Tables, after: Tables, warehouse: WarehouseId, counts: seq<Count>, n: nat, diff: int)
    requires n < |counts| && Separate(s, warehouse, counts) && MovesOnly(s, after, warehouse, counts[n], diff)
    ensures Separate(after, warehouse, counts)
    ensures forall i :: 0 <= i < |counts| ==>
      Target(after, warehouse, counts[i]) == Target(s, warehouse, counts[i]) + if i == n then diff else 0
  {
    SeparateLater(s, after, warehouse, counts);
    forall i | 0 <= i < |counts| && i != n ensures Target(after, warehouse, counts[i]) == Target(s, warehouse, counts[i]) {
      assert !Overlap(s, warehouse, counts[n], counts[i]);
    }
  }

  lemma SeparateLater(s: Tables, after: Tables, warehouse: WarehouseId, counts: seq<Count>)
    requires Separate(s, warehouse, counts) && SamePlaces(s, after)
    ensures Separate(after, warehouse, counts)
  {
    forall i, j | 0 <= i < j < |counts|
      ensures Stored(after, counts[i]) && Stored(after, counts[j]) && !Overlap(after, warehouse, counts[i], counts[j])
    {
      assert !Overlap(s, warehouse, counts[i], counts[j]);
    }
    forall i | 0 <= i < |counts| ensures Stored(after, counts[i]) {
      assert Stored(s, counts[i]);
    }
  }

  /** A count that names a batch names one of its own variant in the warehouse. */
  predicate MatchingTargets(s: Tables, warehouse: WarehouseId, counts: seq<Count>)
  {
    forall i :: 0 <= i < |counts| && counts[i].batch.Some? ==> TargetsBatch(s, warehouse, counts[i])
  }

  /** Posting what was prepared, with no stock step in between, succeeds exactly when no counted
      quantity is negative, and then leaves every counted stock at the counted quantity. */
  lemma CountingRestoresShelf(s: Tables, adj: Adjustment, counts: seq<Count>)
    requires Books(s) && Separate(s, adj.warehouse, counts) && MatchingTargets(s, adj.warehouse, counts)
    ensures var posted := ApplyItems(s, adj, PreparedItems(s, adj.warehouse, counts));
      && (posted.Ok? <==> forall i :: 0 <= i < |counts| ==> counts[i].physical >= 0)
      && (posted.Ok? ==>
            && KeepsBooks(s, posted.value)
            && forall i :: 0 <= i < |counts| ==> Target(posted.value, adj.warehouse, counts[i]) == counts[i].physical)
  {
    PostingPreparedCounts(s, adj.warehouse, s, adj, counts);
    forall i | 0 <= i < |counts| ensures Target(s, adj.warehouse, counts[i]) == SystemQty(s, adj.warehouse, counts[i]) {
    }
  }

  /** As it happens: three thousandths counted where one is in stock, and the draft moved to an empty
      warehouse. Posting there adds the difference of two, and the count is not met. */
  lemma MovedDraftMisses(adj: Adjustment, variant: VariantId)
    requires adj.warehouse != 0
    ensures var s := Open(EMPTY, "LOT", None, 1, Cause(GrnIn, 0, 0, variant));
      var c := Count("c", variant, None, 3);
      var posted := ApplyItems(s, adj, PreparedItems(s, 0, [c]));
      posted.Ok? && Target(posted.value, adj.warehouse, c) == 2
  {
    var s := Open(EMPTY, "LOT", None, 1, Cause(GrnIn, 0, 0, variant));
    var c := Count("c", variant, None, 3);
    OpenKeepsBooks(EMPTY, "LOT", None, 1, Cause(GrnIn, 0, 0, variant));
    assert OnHand(s, 0, variant) == 1 + Sum(s.batches[1..], Held(0, variant));
    assert OnHand(s, adj.warehouse, variant) == 0 + Sum(s.batches[1..], Held(adj.warehouse, variant));
    PostingPreparedCounts(s, 0, s, adj, [c]);
    assert Outcome(s, 0, s, adj.warehouse, [c][0]) == 2;
  }

  /** Separation is needed: one target counted twice is moved twice, so it ends at the counted quantity
      exactly when the count found no difference at all. */
  lemma CountedTwice(s: Tables, adj: Adjustment, c: Count)
    requires Books(s) && MatchingTargets(s, adj.warehouse, [c])
    ensures var posted := ApplyItems(s, adj, PreparedItems(s, adj.warehouse, [c, c]));
      var system := SystemQty(s, adj.warehouse, c);
      && (posted.Ok? <==> c.physical >= 0 && 2 * c.physical >= system)
      && (posted.Ok? ==> Target(posted.value, adj.warehouse, c) == 2 * c.physical - system)
  {
    var x := PreparedItem(s, adj.warehouse, c);
    assert [c][0] == c;
    assert PreparedItems(s, adj.warehouse, [c, c]) == [x, x];
    ApplyItemEffect(s, adj, c, x);
    var r := ApplyItem(s, adj, x);
    if r.Ok? {
      ApplyItemKeepsBooks(s, adj, x);
      ApplyItemEffect(r.value, adj, c, x);
    }
    ApplyTwo(s, adj, x);
  }

  /** As it happens: one thousandth in stock, counted as two on two lines, ends at three. */
  lemma CountedTwiceMisses(adj: Adjustment, variant: VariantId)
    ensures var s := Open(EMPTY, "LOT", None, 1, Cause(GrnIn, 0, adj.warehouse, variant));
      var c := Count("c", variant, None, 2);
      var posted := ApplyItems(s, adj, PreparedItems(s, adj.warehouse, [c, c]));
      posted.Ok? && Target(posted.value, adj.warehouse, c) == 3
  {
    var s := Open(EMPTY, "LOT", None, 1, Cause(GrnIn, 0, adj.warehouse, variant));
    OpenKeepsBooks(EMPTY, "LOT", None, 1, Cause(GrnIn, 0, adj.warehouse, variant));
    assert OnHand(s, adj.warehouse, variant) == 1 + Sum(s.batches[1..], Held(adj.warehouse, variant));
    CountedTwice(s, adj, Count("c", variant, None, 2));
  }

  // ---------------------------------------------------------------- lines that repeat a batch

  /** Weighs an item by its difference when it names a batch. */
  function DiffOn(id: BatchId): AdjustmentItem -> int
  {
    (item: AdjustmentItem) => if item.batch == Some(id) then item.diff else 0
  }

  ghost predicate NameBatches(s: Tables, items: seq<AdjustmentItem>)
  {
    forall i :: 0 <= i < |items| ==> items[i].batch.Some? && Known(s, items[i].batch)
  }

  /** What the n-th line leaves on its batch, the lines before it included. */
  function RunningQty(s: Tables, items: seq<AdjustmentItem>, n: nat): int
    requires n < |items| && items[n].batch.Some? && Known(s, items[n].batch)
  {
    s.batches[items[n].batch.value].available + Sum(items[..n + 1], DiffOn(items[n].batch.value))
  }

  lemma BatchItemEffect(s: Tables, adj: Adjustment, item: AdjustmentItem)
    requires Books(s) && item.batch.Some? && Known(s, item.batch)
    ensures var r := ApplyItem(s, adj, item);
      && (r.Ok? <==> s.batches[item.batch.value].available + item.diff >= 0)
      && (r.Ok? ==> |r.value.batches| == |s.batches| && Books(r.value))
      && (r.Ok? ==> forall id: nat :: id < |s.batches| ==>
            r.value.batches[id].available == s.batches[id].available + DiffOn(id)(item))
  {
    var c := Count(item.tag, item.variant, item.batch, 0);
    var r := ApplyItem(s, adj, item);
    ApplyItemEffect(s, adj, c, item);
    if r.Ok? {
      ApplyItemKeepsBooks(s, adj, item);
      assert |r.value.batches| == |s.batches|;
      forall id: nat | id < |s.batches|
        ensures r.value.batches[id].available == s.batches[id].available + DiffOn(id)(item)
      {
        var d := Count("", item.variant, Some(id), 0);
        assert Stored(s, d) && (Overlap(s, adj.warehouse, c, d) <==> item.batch == Some(id));
      }
    }
  }

  /** Lines that name batches, with any repeats: posting succeeds exactly when no line, with the lines
      before it on its batch, goes below zero, and then each batch ends at its start plus the sum of its
      lines' differences. */
  lemma {:induction false} RepeatedBatches(s: Tables, adj: Adjustment, items: seq<AdjustmentItem>)
    requires Books(s) && NameBatches(s, items)
    ensures var r := ApplyItems(s, adj, items);
      && (r.Ok? <==> forall n :: 0 <= n < |items| ==> RunningQty(s, items, n) >= 0)
      && (r.Ok? ==> |r.value.batches| == |s.batches| && forall id: nat :: id < |s.batches| ==>
            r.value.batches[id].available == s.batches[id].available + Sum(items, DiffOn(id)))
    decreases |items|
  {
    if items != [] {
      var rest, r := items[1..], ApplyItem(s, adj, items[0]);
      BatchItemEffect(s, adj, items[0]);
      FirstRunning(s, items);
      if r.Ok? {
        RepeatedBatches(r.value, adj, rest);
        forall n | 0 <= n < |rest| ensures RunningQty(s, items, n + 1) == RunningQty(r.value, rest, n) {
          NextRunning(s, r.value, items, n);
        }
        if forall n :: 0 <= n < |items| ==> RunningQty(s, items, n) >= 0 {
          forall n | 0 <= n < |rest| ensures RunningQty(r.value, rest, n) >= 0 {
            assert RunningQty(s, items, n + 1) >= 0;
          }
        }
        if forall n :: 0 <= n < |rest| ==> RunningQty(r.value, rest, n) >= 0 {
          forall n | 0 <= n < |items| ensures RunningQty(s, items, n) >= 0 {
            if n > 0 { assert RunningQty(r.value, rest, n - 1) >= 0; }
          }
        }
      } else {
        assert RunningQty(s, items, 0) < 0;
      }
    }
  }

  lemma FirstRunning(s: Tables, items: seq<AdjustmentItem>)
    requires items != [] && NameBatches(s, items)
    ensures RunningQty(s, items, 0) == s.batches[items[0].batch.value].available + items[0].diff
  {
    var f := DiffOn(items[0].batch.value);
    assert items[..1] == [items[0]] && [items[0]][1..] == [];
    assert Sum([items[0]], f) == f(items[0]) + Sum([items[0]][1..], f);
  }

  lemma NextRunning(s: Tables, after: Tables, items: seq<AdjustmentItem>, n: nat)
    requires n < |items| - 1 && NameBatches(s, items) && |after.batches| == |s.batches|
    requires forall id: nat :: id < |s.batches| ==>
      after.batches[id].available == s.batches[id].available + DiffOn(id)(items[0])
    ensures RunningQty(s, items, n + 1) == RunningQty(after, items[1..], n)
  {
    assert items[..n + 2][1..] == items[1..][..n + 1];
  }

  lemma ApplyTwo(s: Tables, adj: Adjustment, x: AdjustmentItem)
    ensures ApplyItems(s, adj, [x, x])
         == var r := ApplyItem(s, adj, x); if r.Ok? then ApplyItem(r.value, adj, x) else r
  {
    assert [x, x][1..] == [x] && [x][1..] == [];
    var r := ApplyItem(s, adj, x);
    if r.Ok? { assert ApplyItems(r.value, adj, [x]) == ApplyItem(r.value, adj, x); }
  }
}
