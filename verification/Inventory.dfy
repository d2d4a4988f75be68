/** Stock adjustments: counting, approving and posting (inventory.service.ts). */
module Inventory {
  import opened Wrappers
  import opened Sums
  import opened Sorting
  import opened Greedy
  import opened Stock
  import opened Fefo
  import opened Database

  datatype AdjustmentItem = AdjustmentItem(tag: string, variant: VariantId, batch: Option<BatchId>, diff: int)

  datatype AdjustmentStatus = Draft | Approved | Posted

  datatype Adjustment = Adjustment(
    id: nat, number: string, warehouse: WarehouseId, status: AdjustmentStatus, items: seq<AdjustmentItem>)

  /** A counted quantity, of one batch or of a whole variant in the warehouse. */
  datatype Count = Count(tag: string, variant: VariantId, batch: Option<BatchId>, physical: int)

  // ---------------------------------------------------------------- specification

  function Known(s: Tables, batch: Option<BatchId>): bool
  {
    batch.Some? && batch.value < |s.batches|
  }

  function ApplyPositive(s: Tables, adj: Adjustment, item: AdjustmentItem, qty: int): Tables
  {
    var cause := Cause(AdjustmentIn, adj.id, adj.warehouse, item.variant);
    if Known(s, item.batch) then Receive(s, item.batch.value, qty, None, cause)
    else Open(s, "ADJ-" + adj.number + "-" + item.tag, None, qty, cause)
  }

  function NegativeIds(s: Tables, adj: Adjustment, item: AdjustmentItem): (ids: seq<BatchId>)
    ensures InTable(s, ids)
  {
    if item.batch.None? then FefoIds(s, adj.warehouse, item.variant)
    else if item.batch.value < |s.batches| then [item.batch.value]
    else []
  }

  function ApplyNegative(s: Tables, adj: Adjustment, item: AdjustmentItem, qty: int): Result<Tables>
  {
    Consume(s, NegativeIds(s, adj, item), qty, Cause(AdjustmentOut, adj.id, adj.warehouse, item.variant))
  }

  function ApplyItem(s: Tables, adj: Adjustment, item: AdjustmentItem): Result<Tables>
  {
    if item.diff == 0 then Ok(s)
    else if item.diff > 0 then Ok(ApplyPositive(s, adj, item, item.diff))
    else ApplyNegative(s, adj, item, -item.diff)
  }

  function ApplyItems(s: Tables, adj: Adjustment, items: seq<AdjustmentItem>): Result<Tables>
    decreases |items|
  {
    if items == [] then Ok(s)
    else
      var r := ApplyItem(s, adj, items[0]);
      if r.Err? then r else ApplyItems(r.value, adj, items[1..])
  }

  /** However its items target batches, a posted adjustment keeps the books. */
  lemma {:induction false} ApplyItemsKeepsBooks(s: Tables, adj: Adjustment, items: seq<AdjustmentItem>)
    requires Books(s) && ApplyItems(s, adj, items).Ok?
    ensures KeepsBooks(s, ApplyItems(s, adj, items).value)
    ensures LeavesTrips(s, ApplyItems(s, adj, items).value)
    decreases |items|
  {
    if items != [] {
      ApplyItemKeepsBooks(s, adj, items[0]);
      ApplyItemsKeepsBooks(ApplyItem(s, adj, items[0]).value, adj, items[1..]);
    }
  }

  lemma ApplyItemKeepsBooks(s: Tables, adj: Adjustment, item: AdjustmentItem)
    requires Books(s) && ApplyItem(s, adj, item).Ok?
    ensures KeepsBooks(s, ApplyItem(s, adj, item).value)
    ensures LeavesTrips(s, ApplyItem(s, adj, item).value)
  {
    var cause := Cause(AdjustmentIn, adj.id, adj.warehouse, item.variant);
    if item.diff > 0 && Known(s, item.batch) {
      ReceiveKeepsBooks(s, item.batch.value, item.diff, None, cause);
    } else if item.diff > 0 {
      OpenKeepsBooks(s, "ADJ-" + adj.number + "-" + item.tag, None, item.diff, cause);
    } else if item.diff < 0 {
      DrainKeepsBooks(s, NegativeIds(s, adj, item), -item.diff, cause.(kind := AdjustmentOut));
    }
  }

  predicate TargetsBatch(s: Tables, warehouse: WarehouseId, c: Count)
  {
    Known(s, c.batch) && Matches(s.batches[c.batch.value], warehouse, c.variant)
  }

  function SystemQty(s: Tables, warehouse: WarehouseId, c: Count): int
  {
    if TargetsBatch(s, warehouse, c) then s.batches[c.batch.value].available
    else OnHand(s, warehouse, c.variant)
  }

  function PreparedItem(s: Tables, warehouse: WarehouseId, c: Count): AdjustmentItem
  {
    AdjustmentItem(c.tag, c.variant, c.batch, c.physical - SystemQty(s, warehouse, c))
  }

  function PreparedItems(s: Tables, warehouse: WarehouseId, counts: seq<Count>): seq<AdjustmentItem>
  {
    seq(|counts|, i requires 0 <= i < |counts| => PreparedItem(s, warehouse, counts[i]))
  }

  // ---------------------------------------------------------------- the service

  class InventoryService {
    const db: StockDb
    var adjustments: seq<Adjustment>

    constructor (db: StockDb)
      ensures this.db == db && adjustments == []
    {
      this.db := db;
      adjustments := [];
    }

    method PrepareAdjustmentItems(variants: set<VariantId>, warehouse: WarehouseId, counts: seq<Count>)
      returns (r: Result<seq<AdjustmentItem>>)
      ensures r.Ok? <==> forall i :: 0 <= i < |counts| ==> counts[i].variant in variants
      ensures r.Ok? ==> r.value == PreparedItems(db.View(), warehouse, counts)
      ensures r.Ok? ==> |r.value| == |counts| && forall i :: 0 <= i < |counts| ==>
        var c := counts[i];
        && r.value[i].variant == c.variant && r.value[i].batch == c.batch
        && r.value[i].diff == c.physical
             - if c.batch.Some? && c.batch.value < |db.batches|
                  && db.batches[c.batch.value].warehouse == warehouse && db.batches[c.batch.value].variant == c.variant
               then db.batches[c.batch.value].available
               else Sum(db.batches, Held(warehouse, c.variant))
      ensures r.Err? ==> r.error == NotFound
    {
      var prepared: seq<AdjustmentItem> := [];
      for n := 0 to |counts|
        invariant |prepared| == n
        invariant forall i :: 0 <= i < n ==> counts[i].variant in variants
        invariant forall i :: 0 <= i < n ==> prepared[i] == PreparedItem(db.View(), warehouse, counts[i])
      {
        var c := counts[n];
        if c.variant !in variants { return Err(NotFound); }
        var systemQty;
        if TargetsBatch(db.View(), warehouse, c) {
          systemQty := db.batches[c.batch.value].available;
        } else {
          systemQty := WarehouseQty(warehouse, c.variant);
        }
        prepared := prepared + [AdjustmentItem(c.tag, c.variant, c.batch, c.physical - systemQty)];
      }
      return Ok(prepared);
    }

    method WarehouseQty(warehouse: WarehouseId, variant: VariantId) returns (total: int)
      ensures total == OnHand(db.View(), warehouse, variant)
    {
      total := 0;
      for n := 0 to |db.batches|
        invariant total == Sum(db.batches[..n], Held(warehouse, variant))
      {
        SumAppend(db.batches[..n], db.batches[n], Held(warehouse, variant));
        assert db.batches[..n + 1] == db.batches[..n] + [db.batches[n]];
        if Matches(db.batches[n], warehouse, variant) { total := total + db.batches[n].available; }
      }
      assert db.batches[..|db.batches|] == db.batches;
    }

    method CreateStockAdjustment(variants: set<VariantId>, number: string, warehouse: WarehouseId, counts: seq<Count>)
      returns (r: Result<nat>)
      modifies this
      ensures r.Ok? <==> forall i :: 0 <= i < |counts| ==> counts[i].variant in variants
      ensures r.Ok? ==>
        && r.value == |old(adjustments)|
        && adjustments == old(adjustments)
             + [Adjustment(r.value, number, warehouse, Draft, PreparedItems(db.View(), warehouse, counts))]
      ensures r.Err? ==> adjustments == old(adjustments)
    {
      var items := PrepareAdjustmentItems(variants, warehouse, counts);
      if items.Err? { return Err(items.error); }
      r := Ok(|adjustments|);
      adjustments := adjustments + [Adjustment(|adjustments|, number, warehouse, Draft, items.value)];
    }

    /** Recounts a draft, or moves it to another warehouse with the lines it has. */
    method UpdateStockAdjustment(variants: set<VariantId>, id: nat, warehouse: Option<WarehouseId>, counts: seq<Count>)
      returns (r: Result<nat>)
      modifies this
      ensures id >= |old(adjustments)| ==> r == Err(NotFound)
      ensures id < |old(adjustments)| ==>
        var adj := old(adjustments)[id];
        var target := if warehouse.Some? then warehouse.value else adj.warehouse;
        && r == (if adj.status != Draft then Err(Conflict)
                 else if exists i :: 0 <= i < |counts| && counts[i].variant !in variants then Err(NotFound) else Ok(id))
        && (r.Ok? ==> adjustments == old(adjustments)[id := adj.(warehouse := target,
              items := if counts == [] then adj.items else PreparedItems(db.View(), target, counts))])
      ensures r.Err? ==> adjustments == old(adjustments)
    {
      if id >= |adjustments| { return Err(NotFound); }
      var adj := adjustments[id];
      if adj.status == Approved || adj.status == Posted { return Err(Conflict); }
      var target := if warehouse.Some? then warehouse.value else adj.warehouse;
      if counts != [] {
        var prepared := PrepareAdjustmentItems(variants, target, counts);
        if prepared.Err? { return Err(prepared.error); }
        adj := adj.(items := prepared.value);
      }
      adjustments := adjustments[id := adj.(warehouse := target)];
      return Ok(id);
    }

    method ApproveStockAdjustment(id: nat) returns (r: Result<nat>)
      modifies this
      ensures r == if id >= |old(adjustments)| then Err(NotFound)
                   else if old(adjustments)[id].status != Draft then Err(Conflict) else Ok(id)
      ensures adjustments == if r.Ok? then old(adjustments)[id := old(adjustments)[id].(status := Approved)]
                             else old(adjustments)
    {
      if id >= |adjustments| { return Err(NotFound); }
      if adjustments[id].status == Approved || adjustments[id].status == Posted { return Err(Conflict); }
      adjustments := adjustments[id := adjustments[id].(status := Approved)];
      return Ok(id);
    }

    /** Posts an approved adjustment once, all items or none. */
    method PostStockAdjustment(id: nat) returns (r: Result<nat>)
      modifies this, db
      ensures id >= |old(adjustments)| ==> r == Err(NotFound)
      ensures id < |old(adjustments)| ==>
        var adj := old(adjustments)[id];
        var posted := ApplyItems(old(db.View()), adj, adj.items);
        && r == (if adj.status == Posted then Err(Conflict)
                 else if adj.status != Approved then Err(BadRequest)
                 else if posted.Err? then Err(posted.error) else Ok(id))
        && (r.Ok? ==> db.View() == posted.value && adjustments == old(adjustments)[id := adj.(status := Posted)])
      ensures r.Err? ==> db.View() == old(db.View()) && adjustments == old(adjustments)
    {
      if id >= |adjustments| { return Err(NotFound); }
      var adj := adjustments[id];
      if adj.status == Posted { return Err(Conflict); }
      if adj.status != Approved { return Err(BadRequest); }
      var posted := PostItems(adj, adj.items);
      if posted.Err? { return Err(posted.error); }
      adjustments := adjustments[id := adj.(status := Posted)];
      return Ok(id);
    }

    method PostItems(adj: Adjustment, items: seq<AdjustmentItem>) returns (r: Result<()>)
      modifies db
      ensures var spec := ApplyItems(old(db.View()), adj, items);
        db.View() == if spec.Ok? then spec.value else old(db.View())
      ensures var spec := ApplyItems(old(db.View()), adj, items);
        r == if spec.Ok? then Ok(()) else Err(spec.error)
    {
      var batches, log := db.batches, db.log;
      for n := 0 to |items|
        invariant ApplyItems(db.View(), adj, items[n..]) == ApplyItems(old(db.View()), adj, items)
      {
        var item := items[n];
        assert items[n..][1..] == items[n + 1..];
        if item.diff > 0 {
          ApplyPositiveAdjustment(adj, item, item.diff);
        } else if item.diff < 0 {
          var out := ApplyNegativeAdjustment(adj, item, -item.diff);
          if out.Err? {
            db.batches, db.log := batches, log;  // the transaction rolls back
            return Err(out.error);
          }
        }
      }
      return Ok(());
    }

    method ApplyPositiveAdjustment(adj: Adjustment, item: AdjustmentItem, qty: int)
      modifies db
      ensures db.View() == ApplyPositive(old(db.View()), adj, item, qty)
      ensures var named := item.batch.Some? && item.batch.value < |old(db.batches)|;
        var id := if named then item.batch.value else |old(db.batches)|;
        && db.log == old(db.log) + [Movement(Cause(AdjustmentIn, adj.id, adj.warehouse, item.variant), id, qty, 0)]
        && db.batches == if named
             then var b := old(db.batches)[id];
                  old(db.batches)[id := b.(received := b.received + qty, available := b.available + qty, status := Active)]
             else old(db.batches)
                  + [Batch(item.variant, adj.warehouse, "ADJ-" + adj.number + "-" + item.tag, None, qty, qty, Active)]
    {
      var target;
      if item.batch.Some? && item.batch.value < |db.batches| {
        target := item.batch.value;
        var batch := db.batches[target];
        db.batches := db.batches[target := batch.(received := batch.received + qty,
                                                  available := batch.available + qty, status := Active)];
      } else {
        target := |db.batches|;
        db.batches := db.batches + [Batch(item.variant, adj.warehouse, "ADJ-" + adj.number + "-" + item.tag,
                                          None, qty, qty, Active)];
      }
      db.log := db.log + [Movement(Cause(AdjustmentIn, adj.id, adj.warehouse, item.variant), target, qty, 0)];
    }

    method ApplyNegativeAdjustment(adj: Adjustment, item: AdjustmentItem, qty: int) returns (r: Result<()>)
      modifies db
      ensures var spec := ApplyNegative(old(db.View()), adj, item, qty);
        db.View() == if spec.Ok? then spec.value else old(db.View())
      ensures var spec := ApplyNegative(old(db.View()), adj, item, qty);
        r == if spec.Ok? then Ok(()) else Err(spec.error)
      ensures r.Ok? && item.batch.None? && qty >= 0 && Books(old(db.View())) ==>
        TakesEarliestFirst(old(db.batches), db.batches, adj.warehouse, item.variant)
    {
      if qty >= 0 && Books(db.View()) {
        DrainTakesEarliestFirst(db.View(), adj.warehouse, item.variant, qty,
                                Cause(AdjustmentOut, adj.id, adj.warehouse, item.variant));
      }
      var ids := NegativeIds(db.View(), adj, item);
      var live := Live(db.View(), ids);
      if item.batch.None? { FefoIdsMatch(db.View(), adj.warehouse, item.variant); }
      LiveMembers(db.View(), ids);
      DrainLive(db.View(), ids, db.View(), qty, Cause(AdjustmentOut, adj.id, adj.warehouse, item.variant));
      if Total(Shelf(db.View(), live)) < qty { return Err(BadRequest); }
      TakeFromBatches(adj, item, live, Rows(db.View(), live), qty);
      return Ok(());
    }

    /** The consuming loop over the rows the query returned. */
    method TakeFromBatches(adj: Adjustment, item: AdjustmentItem, live: seq<BatchId>, found: seq<Batch>, qty: int)
      requires InTable(db.View(), live) && NoRepeats(live) && found == Rows(db.View(), live)
      requires forall k :: 0 <= k < |found| ==> found[k].available > 0
      modifies db
      ensures db.View() == Drain(old(db.View()), live, qty, Cause(AdjustmentOut, adj.id, adj.warehouse, item.variant))
    {
      var cause := Cause(AdjustmentOut, adj.id, adj.warehouse, item.variant);
      ghost var goal := Drain(db.View(), live, qty, cause);
      var remaining, n := qty, 0;
      while n < |live|
        invariant 0 <= n <= |live| && InTable(db.View(), live)
        invariant Drain(db.View(), live[n..], remaining, cause) == goal
        invariant forall k :: n <= k < |live| ==> db.batches[live[k]] == found[k]
      {
        if remaining <= 0 { break; }
        DrainStep(db.View(), live, n, remaining, cause);
        var available := found[n].available;
        var deduct := Min(available, remaining);
        remaining := remaining - deduct;
        db.TakeOut(live[n], found[n], deduct, cause);
        n := n + 1;
      }
    }
  }
}
