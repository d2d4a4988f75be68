/** The status of batches over whole runs: a consumed batch is empty, unless a sales return put goods back. */
module BatchHistory {
  import opened Wrappers
  import opened Sums
  import opened Greedy
  import opened Stock
  import opened Fefo
  import opened Dispatch
  import opened OperationsHistory
  import GoodsReceipts
  import Inventory
  import Returns
  import Places

  /** No batch marked consumed holds stock. */
  ghost predicate ConsumedEmpty(s: Tables)
  {
    forall id :: 0 <= id < |s.batches| && s.batches[id].status == Consumed ==> s.batches[id].available == 0
  }

  lemma {:induction false} DrainConsumed(s: Tables, ids: seq<BatchId>, qty: int, cause: Cause)
    requires ConsumedEmpty(s) && InTable(s, ids)
    ensures ConsumedEmpty(Drain(s, ids, qty, cause))
    decreases |ids|
  {
    if ids != [] && qty > 0 {
      var held := s.batches[ids[0]].available;
      if held <= 0 { DrainConsumed(s, ids[1..], qty, cause); }
      else { DrainConsumed(Issue(s, ids[0], Min(held, qty), cause), ids[1..], qty - Min(held, qty), cause); }
    }
  }

  lemma {:induction false} ReceiptConsumed(s: Tables, receipt: GoodsReceipts.Receipt, items: seq<GoodsReceipts.GrnItem>)
    requires ConsumedEmpty(s)
    ensures ConsumedEmpty(GoodsReceipts.PostItems(s, receipt, items))
  {
    if items != [] { ReceiptConsumed(s, receipt, items[..|items| - 1]); }
  }

  lemma {:induction false} AdjustmentConsumed(s: Tables, adj: Inventory.Adjustment, items: seq<Inventory.AdjustmentItem>)
    requires ConsumedEmpty(s) && Inventory.ApplyItems(s, adj, items).Ok?
    ensures ConsumedEmpty(Inventory.ApplyItems(s, adj, items).value)
    decreases |items|
  {
    if items != [] {
      var item := items[0];
      if item.diff < 0 {
        DrainConsumed(s, Inventory.NegativeIds(s, adj, item), -item.diff, Cause(AdjustmentOut, adj.id, adj.warehouse, item.variant));
      }
      AdjustmentConsumed(Inventory.ApplyItem(s, adj, item).value, adj, items[1..]);
    }
  }

  lemma {:induction false} WithdrawConsumed(s: Tables, doc: Returns.ReturnDoc, items: seq<Returns.ReturnItem>)
    requires ConsumedEmpty(s) && Returns.WithdrawItems(s, doc, items).Ok?
    ensures ConsumedEmpty(Returns.WithdrawItems(s, doc, items).value)
  {
    if items != [] { WithdrawConsumed(s, doc, items[..|items| - 1]); }
  }

  lemma {:induction false} LoadConsumed(s: Tables, trip: nat, items: seq<TripItem>)
    requires ConsumedEmpty(s) && LoadItems(s, trip, items).Ok?
    ensures ConsumedEmpty(LoadItems(s, trip, items).value)
    decreases |items|
  {
    if items != [] {
      if items[0].planned > 0 {
        DrainConsumed(s, FefoIds(s, items[0].warehouse, items[0].variant), items[0].planned, LoadCause(trip, items[0]));
      }
      LoadConsumed(LoadItem(s, trip, items[0]).value, trip, items[1..]);
    }
  }

  lemma LoadingConsumed(o: Operations, id: nat)
    requires ConsumedEmpty(o.stock)
    ensures Loading(o, id).Ok? ==> ConsumedEmpty(Loading(o, id).value.stock)
  {
    if Loading(o, id).Ok? && LoadItems(o.stock, id, o.trips[id].items).Ok? { LoadConsumed(o.stock, id, o.trips[id].items); }
  }

  /** A sales return line that puts goods back on a consumed batch. */
  predicate Refills(s: Tables, item: Returns.ReturnItem)
  {
    && item.restock && item.qty > 0 && item.batch.Some? && item.batch.value < |s.batches|
    && s.batches[item.batch.value].status == Consumed
  }

  /** Restocking changes no status and takes nothing away, so it fills a consumed batch exactly if a line does. */
  lemma {:induction false} RestockConsumed(s: Tables, doc: Returns.ReturnDoc, items: seq<Returns.ReturnItem>)
    requires ConsumedEmpty(s)
    ensures var after := Returns.RestockItems(s, doc, items);
      && |after.batches| == |s.batches|
      && (forall id :: 0 <= id < |s.batches| ==>
            after.batches[id].status == s.batches[id].status && after.batches[id].available >= s.batches[id].available)
      && (ConsumedEmpty(after) <==> forall i :: 0 <= i < |items| ==> !Refills(s, items[i]))
  {
    if items != [] {
      var init, item := items[..|items| - 1], items[|items| - 1];
      RestockConsumed(s, doc, init);
      var before, after := Returns.RestockItems(s, doc, init), Returns.RestockItems(s, doc, items);
      if forall i :: 0 <= i < |items| ==> !Refills(s, items[i]) {
        assert forall i :: 0 <= i < |init| ==> !Refills(s, init[i]);
        assert !Refills(s, item);
      } else if Refills(s, item) {
        assert after.batches[item.batch.value].available > 0;
      } else {
        assert exists i :: 0 <= i < |init| && Refills(s, init[i]);
        var id :| 0 <= id < |s.batches| && before.batches[id].status == Consumed && before.batches[id].available != 0;
        assert after.batches[id].available > 0;
      }
    }
  }

  predicate StepRefills(o: Operations, step: Step)
  {
    step.ApproveSalesReturn? && exists i :: 0 <= i < |step.salesReturn.items| && Refills(o.stock, step.salesReturn.items[i])
  }

  lemma StepConsumed(o: Operations, step: Step)
    requires ConsumedEmpty(o.stock) && Books(o.stock)
    ensures ConsumedEmpty(Apply(o, step).stock) <==> !StepRefills(o, step)
  {
    match step
    case PostReceipt(receipt) => ReceiptConsumed(o.stock, receipt, receipt.items);
    case PostAdjustment(adj) =>
      if Inventory.ApplyItems(o.stock, adj, adj.items).Ok? { AdjustmentConsumed(o.stock, adj, adj.items); }
    case ApproveSalesReturn(doc) => RestockConsumed(o.stock, doc, doc.items);
    case PostSupplierReturn(doc) =>
      if Returns.WithdrawItems(o.stock, doc, doc.items).Ok? { WithdrawConsumed(o.stock, doc, doc.items); }
    case LoadTrip(id) => LoadingConsumed(o, id);
    case StartTrip(id, _) => LoadingConsumed(o, id);
    case _ =>
  }

  predicate NeverRefills(steps: seq<Step>)
  {
    steps == [] || (NeverRefills(steps[..|steps| - 1]) && !StepRefills(Run(NOTHING, steps[..|steps| - 1]), steps[|steps| - 1]))
  }

  ghost predicate AlwaysEmpty(steps: seq<Step>)
  {
    ConsumedEmpty(Run(NOTHING, steps).stock) && (steps == [] || AlwaysEmpty(steps[..|steps| - 1]))
  }

  /** Over every run of all the stock writers, no batch marked consumed ever holds stock exactly when no sales
      return puts goods back on a consumed batch; such a batch is still sold from, but stays marked. */
  lemma {:induction false} ConsumedIsEmptyExactly(steps: seq<Step>)
    ensures AlwaysEmpty(steps) <==> NeverRefills(steps)
  {
    if steps != [] {
      var init := steps[..|steps| - 1];
      ConsumedIsEmptyExactly(init);
      if AlwaysEmpty(init) {
        LedgerOverRuns(init);
        EmptyNow(init);
        StepConsumed(Run(NOTHING, init), steps[|steps| - 1]);
      }
    }
  }

  lemma EmptyNow(steps: seq<Step>)
    requires AlwaysEmpty(steps)
    ensures ConsumedEmpty(Run(NOTHING, steps).stock)
  {
  }

  /** As it happens: a thousandth is received, taken by an adjustment and put back by a sales return; the
      batch holds it and stands as consumed. */
  lemma RefilledStaysConsumed()
    ensures exists steps: seq<Step> ::
      Run(NOTHING, steps).stock.batches == [Batch(0, 0, "LOT", None, 1, 1, Consumed)] && !AlwaysEmpty(steps)
  {
    var item := GoodsReceipts.GrnItem(None, 0, 1, 1, 1, 0, 0, 0, Some("LOT"), None);
    var receipt := GoodsReceipts.Receipt(0, "K", "N", None, 0, GoodsReceipts.Approved, [item]);
    var line := Inventory.AdjustmentItem("a", 0, Some(0), -1);
    var adj := Inventory.Adjustment(0, "A", 0, Inventory.Approved, [line]);
    var back := Returns.ReturnItem(0, Some(0), 1, true, 0);
    var doc := Returns.ReturnDoc(0, Returns.Draft, [back]);
    var s := Places.OneReceived(receipt, item);
    var taken := OneTaken(s, adj, line);
    var after := OneBack(taken, doc, back);
    var steps := ReceiveTakeRestock(receipt, adj, doc, s, taken, after);
    MarkedWithStock(steps, 0);
  }

  lemma MarkedWithStock(steps: seq<Step>, id: BatchId)
    requires var batches := Run(NOTHING, steps).stock.batches;
      id < |batches| && batches[id].status == Consumed && batches[id].available != 0
    ensures !AlwaysEmpty(steps)
  {
    if AlwaysEmpty(steps) { EmptyNow(steps); }
  }

  lemma ReceiveTakeRestock(receipt: GoodsReceipts.Receipt, adj: Inventory.Adjustment, doc: Returns.ReturnDoc,
      s: Tables, taken: Tables, after: Tables) returns (steps: seq<Step>)
    requires s == GoodsReceipts.PostItems(EMPTY, receipt, receipt.items)
    requires Inventory.ApplyItems(s, adj, adj.items) == Ok(taken)
    requires after == Returns.RestockItems(taken, doc, doc.items)
    ensures Run(NOTHING, steps).stock == after
  {
    var init := [PostReceipt(receipt), PostAdjustment(adj)];
    steps := init + [ApproveSalesReturn(doc)];
    Places.RunTwo(NOTHING, PostReceipt(receipt), PostAdjustment(adj));
    assert Run(NOTHING, init).stock == taken;
    assert steps[..2] == init;
  }

  lemma OneBack(s: Tables, doc: Returns.ReturnDoc, item: Returns.ReturnItem) returns (after: Tables)
    requires |s.batches| == 1 && doc.items == [item] && item.restock && item.batch == Some(0) && item.qty == 1
    ensures after == Returns.RestockItems(s, doc, doc.items)
    ensures after.batches == [s.batches[0].(available := s.batches[0].available + 1)]
  {
    assert [item][..0] == [] && Returns.RestockItems(s, doc, []) == s;
    after := Returns.RestockItem(s, doc, item);
  }

  lemma OneTaken(s: Tables, adj: Inventory.Adjustment, line: Inventory.AdjustmentItem) returns (after: Tables)
    requires |s.batches| == 1 && s.batches[0].available == 1
    requires adj.items == [line] && line.batch == Some(0) && line.diff == -1
    ensures Inventory.ApplyItems(s, adj, adj.items) == Ok(after)
    ensures after.batches == [s.batches[0].(available := 0, status := Consumed)]
  {
    var cause := Cause(AdjustmentOut, adj.id, adj.warehouse, line.variant);
    after := Issue(s, 0, 1, cause);
    assert [line][1..] == [] && [0][1..] == [];
    assert Inventory.NegativeIds(s, adj, line) == [0];
    assert Live(s, []) == [] && Live(s, [0]) == [0];
    assert Shelf(s, [0]) == [1] && [1][1..] == [];
    assert Total([1]) == 1;
    assert Drain(after, [], 0, cause) == after;
    assert Drain(s, [0], 1, cause) == after;
    assert Inventory.ApplyItems(after, adj, []) == Ok(after);
  }
}
