/** Sales returns put back on the shelf (claims.service.ts) and supplier returns taken off it
    (returns.service.ts). */
module Returns {
  import opened Wrappers
  import opened Sums
  import opened Stock
  import opened Database

  datatype ReturnStatus = Draft | Approved | Posted | Settled | Rejected | Cancelled

  datatype ReturnItem = ReturnItem(variant: VariantId, batch: Option<BatchId>, qty: nat, restock: bool, credit: nat)

  datatype ReturnDoc = ReturnDoc(id: nat, status: ReturnStatus, items: seq<ReturnItem>)

  function BatchOf(s: Tables, item: ReturnItem): Option<BatchId>
  {
    if item.batch.Some? && item.batch.value < |s.batches| then item.batch else None
  }

  // ---------------------------------------------------------------- sales returns

  function RestockItem(s: Tables, doc: ReturnDoc, item: ReturnItem): Tables
  {
    if item.restock && BatchOf(s, item).Some?
    then Restock(s, item.batch.value, item.qty,
                 Cause(ReturnIn, doc.id, s.batches[item.batch.value].warehouse, item.variant))
    else s
  }

  function RestockItems(s: Tables, doc: ReturnDoc, items: seq<ReturnItem>): Tables
  {
    if items == [] then s
    else RestockItem(RestockItems(s, doc, items[..|items| - 1]), doc, items[|items| - 1])
  }

  function Credit(item: ReturnItem): int { item.credit }

  lemma {:induction false} RestockItemsKeepsBooks(s: Tables, doc: ReturnDoc, items: seq<ReturnItem>)
    requires Books(s)
    ensures KeepsBooks(s, RestockItems(s, doc, items))
    ensures LeavesTrips(s, RestockItems(s, doc, items))
  {
    if items != [] {
      var init, item := items[..|items| - 1], items[|items| - 1];
      RestockItemsKeepsBooks(s, doc, init);
      var before := RestockItems(s, doc, init);
      if item.restock && BatchOf(before, item).Some? {
        RestockKeepsBooks(before, item.batch.value, item.qty,
                          Cause(ReturnIn, doc.id, before.batches[item.batch.value].warehouse, item.variant));
      }
    }
  }

  // ---------------------------------------------------------------- supplier returns

  /** A return may exceed the batch by a thousandth: the check allows a 0.001 tolerance. */
  predicate Allowed(held: int, qty: int) { held >= qty - 1 }

  function WithdrawItem(s: Tables, doc: ReturnDoc, item: ReturnItem): Result<Tables>
  {
    if item.qty == 0 || BatchOf(s, item).None? then Ok(s)
    else if !Allowed(s.batches[item.batch.value].available, item.qty) then Err(BadRequest)
    else Ok(Withdraw(s, item.batch.value, item.qty,
                     Cause(ReturnOut, doc.id, s.batches[item.batch.value].warehouse, item.variant)))
  }

  function WithdrawItems(s: Tables, doc: ReturnDoc, items: seq<ReturnItem>): Result<Tables>
  {
    if items == [] then Ok(s)
    else
      var r := WithdrawItems(s, doc, items[..|items| - 1]);
      if r.Err? then r else WithdrawItem(r.value, doc, items[|items| - 1])
  }

  /** A returned line is refused exactly when its batch holds less than it by more than a thousandth; else the
      batch alone is lowered, not below zero, and the full quantity logged as going out of the batch's
      warehouse. A line of no quantity or without a batch in the table does nothing. */
  lemma WithdrawsExactly(s: Tables, doc: ReturnDoc, item: ReturnItem)
    ensures var r := WithdrawItem(s, doc, item);
      if item.qty == 0 || item.batch.None? || item.batch.value >= |s.batches| then r == Ok(s)
      else
        var id := item.batch.value;
        var b := s.batches[id];
        && (r.Ok? <==> item.qty <= b.available + 1)
        && (r.Ok? ==>
              && r.value.batches == s.batches[id := b.(available := if item.qty <= b.available then b.available - item.qty else 0)]
              && r.value.log == s.log + [Movement(Cause(ReturnOut, doc.id, b.warehouse, item.variant), id, 0, item.qty)])
  {
  }

  /** A supplier return overdraws each batch by at most a thousandth per line. */
  lemma {:induction false} ExcessBounded(s: Tables, doc: ReturnDoc, items: seq<ReturnItem>, id: BatchId)
    requires WithdrawItems(s, doc, items).Ok? && Books(s)
    ensures Excess(s, doc, items, id) <= |items|
  {
    if items != [] {
      var init := items[..|items| - 1];
      ExcessBounded(s, doc, init, id);
      WithdrawItemsExcess(s, doc, init);
      var before := WithdrawItems(s, doc, init).value;
      WithdrawsExactly(before, doc, items[|items| - 1]);
      assert id < |before.batches| ==> BatchBooks(before, id);
    }
  }

  /** By how much one return item takes more than its batch holds. */
  function ItemExcess(s: Tables, item: ReturnItem, id: BatchId): nat
  {
    if item.batch == Some(id) && id < |s.batches| then Max(item.qty - s.batches[id].available, 0) else 0
  }

  function Excess(s: Tables, doc: ReturnDoc, items: seq<ReturnItem>, id: BatchId): nat
  {
    if items == [] then 0
    else
      var before := WithdrawItems(s, doc, items[..|items| - 1]);
      Excess(s, doc, items[..|items| - 1], id) + if before.Ok? then ItemExcess(before.value, items[|items| - 1], id) else 0
  }

  /** A supplier return leaves the log ahead of the shelf by exactly its excess over each batch. */
  lemma {:induction false} WithdrawItemsExcess(s: Tables, doc: ReturnDoc, items: seq<ReturnItem>)
    requires Books(s) && WithdrawItems(s, doc, items).Ok?
    ensures var after := WithdrawItems(s, doc, items).value;
      && Books(after)
      && |after.batches| == |s.batches|
      && LeavesTrips(s, after)
      && forall id: nat :: Slack(after, id) == Slack(s, id) + Excess(s, doc, items, id)
  {
    if items != [] {
      var init, item := items[..|items| - 1], items[|items| - 1];
      WithdrawItemsExcess(s, doc, init);
      var before := WithdrawItems(s, doc, init).value;
      if item.qty > 0 && BatchOf(before, item).Some? {
        WithdrawLeavesExcess(before, item.batch.value, item.qty,
                             Cause(ReturnOut, doc.id, before.batches[item.batch.value].warehouse, item.variant));
      } else if item.batch.Some? && item.batch.value < |before.batches| {
        assert BatchBooks(before, item.batch.value);
      }
    }
  }

  // ---------------------------------------------------------------- the services

  class ReturnsService {
    const db: StockDb
    var salesReturns: seq<ReturnDoc>
    var supplierReturns: seq<ReturnDoc>

    constructor (db: StockDb)
      ensures this.db == db && salesReturns == [] && supplierReturns == []
    {
      this.db, salesReturns, supplierReturns := db, [], [];
    }

    /** Approves a sales return and restocks its items; the credit to note is returned. */
    method ApproveSalesReturn(id: nat) returns (r: Result<int>)
      modifies this`salesReturns, db
      ensures id >= |old(salesReturns)| ==> r == Err(NotFound)
      ensures id < |old(salesReturns)| ==> var doc := old(salesReturns)[id];
        && r == (if doc.status in {Approved, Settled} then Err(Conflict) else Ok(Sum(doc.items, Credit)))
        && (r.Ok? ==> db.View() == RestockItems(old(db.View()), doc, doc.items))
        && (r.Ok? ==> salesReturns == old(salesReturns)[id := doc.(status := Approved)])
      ensures r.Err? ==> db.View() == old(db.View()) && salesReturns == old(salesReturns)
    {
      if id >= |salesReturns| { return Err(NotFound); }
      var doc := salesReturns[id];
      if doc.status == Approved || doc.status == Settled { return Err(Conflict); }
      var totalCredit := RestockAll(doc, doc.items);
      salesReturns := salesReturns[id := doc.(status := Approved)];
      return Ok(totalCredit);
    }

    method RestockAll(doc: ReturnDoc, items: seq<ReturnItem>) returns (totalCredit: int)
      modifies db
      ensures db.View() == RestockItems(old(db.View()), doc, items)
      ensures totalCredit == Sum(items, Credit)
    {
      totalCredit := 0;
      for n := 0 to |items|
        invariant totalCredit == Sum(items[..n], Credit)
        invariant db.View() == RestockItems(old(db.View()), doc, items[..n])
      {
        var item := items[n];
        assert items[..n + 1] == items[..n] + [item] && items[..n + 1][..n] == items[..n];
        SumAppend(items[..n], item, Credit);
        totalCredit := totalCredit + item.credit;
        if item.restock && item.batch.Some? && item.batch.value < |db.batches| {
          var batch := db.batches[item.batch.value];
          db.batches := db.batches[item.batch.value := batch.(available := batch.available + item.qty)];
          db.log := db.log + [Movement(Cause(ReturnIn, doc.id, batch.warehouse, item.variant), item.batch.value, item.qty, 0)];
        }
      }
      assert items[..|items|] == items;
    }

    /** Posts a supplier return; it need not have been approved. */
    method PostSupplierReturn(id: nat) returns (r: Result<nat>)
      modifies this`supplierReturns, db
      ensures id >= |old(supplierReturns)| ==> r == Err(NotFound)
      ensures id < |old(supplierReturns)| ==>
        var doc := old(supplierReturns)[id];
        var spec := WithdrawItems(old(db.View()), doc, doc.items);
        && r == (if doc.status == Posted then Err(Conflict)
                 else if doc.status == Cancelled || doc.items == [] then Err(BadRequest)
                 else if spec.Err? then Err(spec.error) else Ok(id))
        && (r.Ok? ==> db.View() == spec.value && supplierReturns == old(supplierReturns)[id := doc.(status := Posted)])
      ensures r.Err? ==> db.View() == old(db.View()) && supplierReturns == old(supplierReturns)
    {
      if id >= |supplierReturns| { return Err(NotFound); }
      var doc := supplierReturns[id];
      if doc.status == Posted { return Err(Conflict); }
      if doc.status == Cancelled { return Err(BadRequest); }
      if doc.items == [] { return Err(BadRequest); }
      var taken := WithdrawAll(doc, doc.items);
      if taken.Err? { return Err(taken.error); }
      supplierReturns := supplierReturns[id := doc.(status := Posted)];
      return Ok(id);
    }

    method WithdrawAll(doc: ReturnDoc, items: seq<ReturnItem>) returns (r: Result<()>)
      modifies db
      ensures var spec := WithdrawItems(old(db.View()), doc, items);
        && r == (if spec.Ok? then Ok(()) else Err(spec.error))
        && db.View() == if spec.Ok? then spec.value else old(db.View())
    {
      var batches, log := db.batches, db.log;
      ghost var start := db.View();
      for n := 0 to |items|
        invariant WithdrawItems(start, doc, items[..n]) == Ok(db.View())
      {
        var item := items[n];
        assert items[..n + 1][..n] == items[..n];
        if item.qty > 0 && item.batch.Some? && item.batch.value < |db.batches| {
          var batch := db.batches[item.batch.value];
          if batch.available < item.qty - 1 {
            WithdrawFails(start, doc, items, n + 1);
            db.batches, db.log := batches, log;  // the transaction rolls back
            return Err(BadRequest);
          }
          db.batches := db.batches[item.batch.value := batch.(available := Max(batch.available - item.qty, 0))];
          db.log := db.log + [Movement(Cause(ReturnOut, doc.id, batch.warehouse, item.variant), item.batch.value, 0, item.qty)];
        }
      }
      assert items[..|items|] == items;
      return Ok(());
    }

    static lemma {:induction false} WithdrawFails(s: Tables, doc: ReturnDoc, items: seq<ReturnItem>, n: nat)
      requires n <= |items| && WithdrawItems(s, doc, items[..n]) == Err(BadRequest)
      ensures WithdrawItems(s, doc, items) == Err(BadRequest)
    {
      if n == |items| { assert items[..n] == items; } else {
        assert items[..|items| - 1][..n] == items[..n];
        WithdrawFails(s, doc, items[..|items| - 1], n);
      }
    }
  }
}
