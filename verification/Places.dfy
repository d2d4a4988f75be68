/** The stock of a variant in a warehouse against the movements logged under them. Movements carry a
    warehouse and variant of their own, which nothing compares with the batch's. */
module Places {
  import opened Wrappers
  import opened Sums
  import opened Sorting
  import opened Greedy
  import opened Stock
  import opened Fefo
  import opened Orders
  import opened Dispatch
  import opened OperationsHistory
  import GoodsReceipts
  import Inventory
  import Returns

  function Moved(m: Movement): int { m.qtyIn - m.qtyOut }

  /** Weighs the movements logged under a warehouse and variant. */
  function Under(w: WarehouseId, v: VariantId): Movement -> int
  {
    (m: Movement) => if m.cause.warehouse == w && m.cause.variant == v then Moved(m) else 0
  }

  /** Weighs the movements whose batch lies there. */
  function On(batches: seq<Batch>, w: WarehouseId, v: VariantId): Movement -> int
  {
    (m: Movement) => if m.batch < |batches| && Matches(batches[m.batch], w, v) then Moved(m) else 0
  }

  /** What the ledger says is in stock. */
  function Logged(s: Tables, w: WarehouseId, v: VariantId): int
  {
    Sum(s.log, Under(w, v))
  }

  /** Weighs what was moved on batches lying there but logged elsewhere, less what was logged there but
      moved on batches lying elsewhere. */
  function Astray(batches: seq<Batch>, w: WarehouseId, v: VariantId): Movement -> int
  {
    (m: Movement) => On(batches, w, v)(m) - Under(w, v)(m)
  }

  function Misplaced(s: Tables, w: WarehouseId, v: VariantId): int
  {
    Sum(s.log, Astray(s.batches, w, v))
  }

  // ---------------------------------------------------------------- batches and movements of a place

  function NetOf(log: seq<Movement>): BatchId -> int
  {
    (id: BatchId) => Sum(log, Entered(id)) - Sum(log, Removed(id))
  }

  function SlackOf(s: Tables): BatchId -> int
  {
    (id: BatchId) => Slack(s, id)
  }

  function OnBatches(ids: seq<BatchId>): Movement -> int
  {
    (m: Movement) => if m.batch in ids then Moved(m) else 0
  }

  lemma {:induction false} NetOfBatch(log: seq<Movement>, id: BatchId)
    ensures NetOf(log)(id) == Sum(log, OnBatches([id]))
  {
    if log != [] { NetOfBatch(log[1..], id); }
  }

  /** Netting batch by batch is netting the movements on those batches. */
  lemma {:induction false} NetOfBatches(log: seq<Movement>, ids: seq<BatchId>)
    requires NoRepeats(ids)
    ensures Sum(ids, NetOf(log)) == Sum(log, OnBatches(ids))
  {
    if ids == [] {
      SumZero(log, OnBatches([]));
    } else {
      assert ids[0] !in ids[1..];
      assert forall id :: id in ids <==> id == ids[0] || id in ids[1..];
      NetOfBatches(log, ids[1..]);
      NetOfBatch(log, ids[0]);
      SumSplit(log, OnBatches(ids), OnBatches([ids[0]]), OnBatches(ids[1..]));
    }
  }

  /** Stock on hand is what the log says, plus what the batches hold beyond their own movements, plus what
      was logged under another place. */
  lemma OnHandByLog(s: Tables, w: WarehouseId, v: VariantId)
    ensures OnHand(s, w, v) == Logged(s, w, v) + Sum(MatchingIds(s.batches, w, v), SlackOf(s)) + Misplaced(s, w, v)
  {
    var ids := MatchingIds(s.batches, w, v);
    MatchingIdsMatch(s.batches, w, v);
    MatchingSum(s, |s.batches|, w, v);
    assert s.batches[..|s.batches|] == s.batches;
    forall i | 0 <= i < |ids| ensures AvailableAt(s)(ids[i]) == NetOf(s.log)(ids[i]) + SlackOf(s)(ids[i]) {
      assert ids[i] in ids;
    }
    SumSplit(ids, AvailableAt(s), NetOf(s.log), SlackOf(s));
    NetOfBatches(s.log, ids);
    SumAgree(s.log, OnBatches(ids), On(s.batches, w, v));
    SumSplit(s.log, On(s.batches, w, v), Under(w, v), Astray(s.batches, w, v));
  }

  // ---------------------------------------------------------------- over whole runs

  function OverdrawnOf(steps: seq<Step>): BatchId -> int
  {
    (id: BatchId) => Overdrawn(NOTHING, steps, id)
  }

  /** What supplier returns took beyond the batches of a variant in a warehouse. */
  function OverdrawnAt(steps: seq<Step>, w: WarehouseId, v: VariantId): int
  {
    Sum(MatchingIds(Run(NOTHING, steps).stock.batches, w, v), OverdrawnOf(steps))
  }

  /** After every run of all the stock writers, the stock of a variant in a warehouse exceeds the ledger by
      exactly what supplier returns overdrew there and what was logged under another place; so the two agree
      exactly when these cancel. */
  lemma PlaceLedgerOverRuns(steps: seq<Step>, w: WarehouseId, v: VariantId)
    ensures var s := Run(NOTHING, steps).stock;
      && OnHand(s, w, v) == Logged(s, w, v) + OverdrawnAt(steps, w, v) + Misplaced(s, w, v)
      && (OnHand(s, w, v) == Logged(s, w, v) <==> OverdrawnAt(steps, w, v) + Misplaced(s, w, v) == 0)
  {
    var s := Run(NOTHING, steps).stock;
    OnHandByLog(s, w, v);
    LedgerOverRuns(steps);
    SumAgree(MatchingIds(s.batches, w, v), SlackOf(s), OverdrawnOf(steps));
  }

  // ---------------------------------------------------------------- documents that name their own batches

  /** Every movement is logged under the place of its batch. */
  ghost predicate WellPlaced(s: Tables)
  {
    forall i :: 0 <= i < |s.log| ==> Placed(s.batches, s.log[i])
  }

  predicate Placed(batches: seq<Batch>, m: Movement)
  {
    m.batch < |batches| && Matches(batches[m.batch], m.cause.warehouse, m.cause.variant)
  }

  /** A document that names only batches of its own warehouse and variant; sales and supplier returns log
      under the batch's warehouse, so only their variant matters. */
  predicate NamesOwnBatches(s: Tables, step: Step)
  {
    match step
    case PostAdjustment(adj) =>
      forall i :: 0 <= i < |adj.items| && adj.items[i].batch.Some? ==>
        Inventory.Known(s, adj.items[i].batch) && Matches(s.batches[adj.items[i].batch.value], adj.warehouse, adj.items[i].variant)
    case ApproveSalesReturn(doc) => ReturnsOwn(s, doc.items)
    case PostSupplierReturn(doc) => ReturnsOwn(s, doc.items)
    case _ => true
  }

  predicate ReturnsOwn(s: Tables, items: seq<Returns.ReturnItem>)
  {
    forall i :: 0 <= i < |items| && Returns.BatchOf(s, items[i]).Some? ==>
      s.batches[items[i].batch.value].variant == items[i].variant
  }

  /** Each document of a run names only batches of its own place, as the tables stand before it. */
  predicate NamesOwnThroughout(steps: seq<Step>)
  {
    steps == [] || (NamesOwnThroughout(steps[..|steps| - 1])
                    && NamesOwnBatches(Run(NOTHING, steps[..|steps| - 1]).stock, steps[|steps| - 1]))
  }

  /** A write that logs one movement under its batch's place. */
  lemma WritePlaced(s: Tables, after: Tables)
    requires WellPlaced(s) && SamePlaces(s, after)
    requires |after.log| == |s.log| + 1 && after.log[..|s.log|] == s.log && Placed(after.batches, after.log[|s.log|])
    ensures WellPlaced(after)
  {
    forall i | 0 <= i < |s.log| ensures Placed(after.batches, after.log[i]) {
      assert after.log[i] == after.log[..|s.log|][i] && Placed(s.batches, s.log[i]);
    }
  }

  lemma {:induction false} DrainPlaced(s: Tables, ids: seq<BatchId>, qty: int, cause: Cause)
    requires WellPlaced(s) && InTable(s, ids)
    requires forall i :: 0 <= i < |ids| ==> Matches(s.batches[ids[i]], cause.warehouse, cause.variant)
    ensures WellPlaced(Drain(s, ids, qty, cause)) && SamePlaces(s, Drain(s, ids, qty, cause))
    decreases |ids|
  {
    if ids != [] && qty > 0 {
      var held := s.batches[ids[0]].available;
      if held <= 0 {
        DrainPlaced(s, ids[1..], qty, cause);
      } else {
        var next := Issue(s, ids[0], Min(held, qty), cause);
        WritePlaced(s, next);
        DrainPlaced(next, ids[1..], qty - Min(held, qty), cause);
      }
    }
  }

  lemma ConsumePlaced(s: Tables, w: WarehouseId, v: VariantId, qty: int, cause: Cause)
    requires WellPlaced(s) && cause.warehouse == w && cause.variant == v && ConsumeFefo(s, w, v, qty, cause).Ok?
    ensures WellPlaced(ConsumeFefo(s, w, v, qty, cause).value) && SamePlaces(s, ConsumeFefo(s, w, v, qty, cause).value)
  {
    FefoIdsMatch(s, w, v);
    DrainPlaced(s, FefoIds(s, w, v), qty, cause);
  }

  lemma {:induction false} ReceiptPlaced(s: Tables, receipt: GoodsReceipts.Receipt, items: seq<GoodsReceipts.GrnItem>)
    requires WellPlaced(s)
    ensures WellPlaced(GoodsReceipts.PostItems(s, receipt, items))
  {
    if items != [] {
      var init, item := items[..|items| - 1], items[|items| - 1];
      ReceiptPlaced(s, receipt, init);
      var before := GoodsReceipts.PostItems(s, receipt, init);
      if item.accepted > 0 { WritePlaced(before, GoodsReceipts.PostItem(before, receipt, item)); }
    }
  }

  lemma AdjustmentItemPlaced(s: Tables, adj: Inventory.Adjustment, item: Inventory.AdjustmentItem)
    requires WellPlaced(s) && Inventory.ApplyItem(s, adj, item).Ok?
    requires item.batch.Some? ==> Inventory.Known(s, item.batch) && Matches(s.batches[item.batch.value], adj.warehouse, item.variant)
    ensures var after := Inventory.ApplyItem(s, adj, item).value; WellPlaced(after) && SamePlaces(s, after)
  {
    if item.diff > 0 {
      WritePlaced(s, Inventory.ApplyPositive(s, adj, item, item.diff));
    } else if item.diff < 0 && item.batch.None? {
      ConsumePlaced(s, adj.warehouse, item.variant, -item.diff, Cause(AdjustmentOut, adj.id, adj.warehouse, item.variant));
    } else if item.diff < 0 {
      DrainPlaced(s, [item.batch.value], -item.diff, Cause(AdjustmentOut, adj.id, adj.warehouse, item.variant));
    }
  }

  lemma {:induction false} AdjustmentPlaced(s: Tables, adj: Inventory.Adjustment, items: seq<Inventory.AdjustmentItem>)
    requires WellPlaced(s) && Inventory.ApplyItems(s, adj, items).Ok?
    requires forall i :: 0 <= i < |items| && items[i].batch.Some? ==>
      Inventory.Known(s, items[i].batch) && Matches(s.batches[items[i].batch.value], adj.warehouse, items[i].variant)
    ensures WellPlaced(Inventory.ApplyItems(s, adj, items).value)
    decreases |items|
  {
    if items != [] {
      AdjustmentItemPlaced(s, adj, items[0]);
      AdjustmentPlaced(Inventory.ApplyItem(s, adj, items[0]).value, adj, items[1..]);
    }
  }

  lemma {:induction false} RestockPlaced(s: Tables, doc: Returns.ReturnDoc, items: seq<Returns.ReturnItem>)
    requires WellPlaced(s) && ReturnsOwn(s, items)
    ensures var after := Returns.RestockItems(s, doc, items);
      WellPlaced(after) && SamePlaces(s, after) && |after.batches| == |s.batches|
  {
    if items != [] {
      var init, item := items[..|items| - 1], items[|items| - 1];
      RestockPlaced(s, doc, init);
      var before := Returns.RestockItems(s, doc, init);
      if item.restock && Returns.BatchOf(before, item).Some? { WritePlaced(before, Returns.RestockItem(before, doc, item)); }
    }
  }

  lemma {:induction false} WithdrawPlaced(s: Tables, doc: Returns.ReturnDoc, items: seq<Returns.ReturnItem>)
    requires WellPlaced(s) && ReturnsOwn(s, items) && Returns.WithdrawItems(s, doc, items).Ok?
    ensures var after := Returns.WithdrawItems(s, doc, items).value;
      WellPlaced(after) && SamePlaces(s, after) && |after.batches| == |s.batches|
  {
    if items != [] {
      var init, item := items[..|items| - 1], items[|items| - 1];
      WithdrawPlaced(s, doc, init);
      var before := Returns.WithdrawItems(s, doc, init).value;
      if item.qty > 0 && Returns.BatchOf(before, item).Some? { WritePlaced(before, Returns.WithdrawItem(before, doc, item).value); }
    }
  }

  lemma {:induction false} LoadPlaced(s: Tables, trip: nat, items: seq<TripItem>)
    requires WellPlaced(s) && LoadItems(s, trip, items).Ok?
    ensures WellPlaced(LoadItems(s, trip, items).value)
    decreases |items|
  {
    if items != [] {
      if items[0].planned > 0 {
        ConsumePlaced(s, items[0].warehouse, items[0].variant, items[0].planned, LoadCause(trip, items[0]));
      }
      LoadPlaced(LoadItem(s, trip, items[0]).value, trip, items[1..]);
    }
  }

  lemma LoadingPlaced(o: Operations, id: nat)
    requires WellPlaced(o.stock)
    ensures Loading(o, id).Ok? ==> WellPlaced(Loading(o, id).value.stock)
  {
    if id < |o.trips| && LoadItems(o.stock, id, o.trips[id].items).Ok? { LoadPlaced(o.stock, id, o.trips[id].items); }
  }

  lemma StepPlaced(o: Operations, step: Step)
    requires WellPlaced(o.stock) && NamesOwnBatches(o.stock, step)
    ensures WellPlaced(Apply(o, step).stock)
  {
    match step
    case PostReceipt(receipt) => ReceiptPlaced(o.stock, receipt, receipt.items);
    case PostAdjustment(adj) =>
      if Inventory.ApplyItems(o.stock, adj, adj.items).Ok? { AdjustmentPlaced(o.stock, adj, adj.items); }
    case ApproveSalesReturn(doc) => RestockPlaced(o.stock, doc, doc.items);
    case PostSupplierReturn(doc) =>
      if Returns.WithdrawItems(o.stock, doc, doc.items).Ok? { WithdrawPlaced(o.stock, doc, doc.items); }
    case LoadTrip(id) => LoadingPlaced(o, id);
    case StartTrip(id, _) => LoadingPlaced(o, id);
    case _ =>
  }

  lemma {:induction false} RunsPlaced(steps: seq<Step>)
    requires NamesOwnThroughout(steps)
    ensures WellPlaced(Run(NOTHING, steps).stock)
  {
    if steps != [] {
      RunsPlaced(steps[..|steps| - 1]);
      StepPlaced(Run(NOTHING, steps[..|steps| - 1]), steps[|steps| - 1]);
    }
  }

  lemma NothingAstray(s: Tables, w: WarehouseId, v: VariantId)
    requires WellPlaced(s)
    ensures Misplaced(s, w, v) == 0
  {
    forall i | 0 <= i < |s.log| ensures Astray(s.batches, w, v)(s.log[i]) == 0 {
      assert Placed(s.batches, s.log[i]);
      assert On(s.batches, w, v)(s.log[i]) == Under(w, v)(s.log[i]);
    }
    SumZero(s.log, Astray(s.batches, w, v));
  }

  lemma {:induction false} SumZeroExactly(ids: seq<BatchId>, f: BatchId -> int)
    requires forall i :: 0 <= i < |ids| ==> f(ids[i]) >= 0
    ensures Sum(ids, f) == 0 <==> forall i :: 0 <= i < |ids| ==> f(ids[i]) == 0
  {
    if ids != [] {
      SumNonNegative(ids[1..], f);
      SumZeroExactly(ids[1..], f);
      assert forall i :: 0 < i < |ids| ==> ids[i] == ids[1..][i - 1];
    }
  }

  /** If documents name only batches of their own warehouse and variant, the ledger of every variant in every
      warehouse is its stock exactly when no supplier return overdrew a batch there. */
  lemma OwnBatchesAgree(steps: seq<Step>, w: WarehouseId, v: VariantId)
    requires NamesOwnThroughout(steps)
    ensures var s := Run(NOTHING, steps).stock;
      OnHand(s, w, v) == Logged(s, w, v)
      <==> forall id: nat :: id < |s.batches| && Matches(s.batches[id], w, v) ==> Overdrawn(NOTHING, steps, id) == 0
  {
    var s := Run(NOTHING, steps).stock;
    var ids := MatchingIds(s.batches, w, v);
    RunsPlaced(steps);
    NothingAstray(s, w, v);
    PlaceLedgerOverRuns(steps, w, v);
    MatchingIdsMatch(s.batches, w, v);
    SumZeroExactly(ids, OverdrawnOf(steps));
    assert forall i :: 0 <= i < |ids| ==> ids[i] in ids;
  }

  /** As it happens: an adjustment of one variant names a batch of another in the same warehouse. The ledger
      of the adjusted variant gains what its stock does not hold. */
  lemma OtherVariantsBatch()
    ensures exists steps: seq<Step> :: OnHand(Run(NOTHING, steps).stock, 0, 1) != Logged(Run(NOTHING, steps).stock, 0, 1)
  {
    var item := GoodsReceipts.GrnItem(None, 0, 1, 1, 1, 0, 0, 0, Some("LOT"), None);
    var receipt := GoodsReceipts.Receipt(0, "K", "N", None, 0, GoodsReceipts.Approved, [item]);
    var line := Inventory.AdjustmentItem("a", 1, Some(0), 1);
    var adj := Inventory.Adjustment(0, "A", 0, Inventory.Approved, [line]);
    var steps := [PostReceipt(receipt), PostAdjustment(adj)];
    var s := OneReceived(receipt, item);
    RunTwo(NOTHING, PostReceipt(receipt), PostAdjustment(adj));
    var after := OneAdjusted(s, adj, line);
    HeldAndLogged(after);
    assert Run(NOTHING, steps).stock == after;
  }

  lemma RunTwo(o: Operations, a: Step, b: Step)
    ensures Run(o, [a, b]) == Apply(Apply(o, a), b)
  {
    assert [a, b][..1] == [a] && [a][..0] == [];
    assert Run(o, [a]) == Apply(o, a);
  }

  lemma OneAdjusted(s: Tables, adj: Inventory.Adjustment, line: Inventory.AdjustmentItem) returns (after: Tables)
    requires |s.batches| == 1 && adj.items == [line] && line.batch == Some(0) && line.diff == 1
    ensures Inventory.ApplyItems(s, adj, adj.items) == Ok(after)
    ensures after.batches == [s.batches[0].(received := s.batches[0].received + 1, available := s.batches[0].available + 1, status := Active)]
    ensures after.log == s.log + [Movement(Cause(AdjustmentIn, adj.id, adj.warehouse, line.variant), 0, 1, 0)]
  {
    assert [line][1..] == [];
    after := Inventory.ApplyPositive(s, adj, line, 1);
    assert Inventory.ApplyItems(after, adj, []) == Ok(after);
  }

  lemma OneReceived(receipt: GoodsReceipts.Receipt, item: GoodsReceipts.GrnItem) returns (s: Tables)
    requires receipt.items == [item] && receipt.warehouse == 0 && receipt.id == 0
    requires item.accepted == 1 && item.variant == 0 && item.batchNo == Some("LOT") && item.expiry.None?
    ensures s == GoodsReceipts.PostItems(EMPTY, receipt, receipt.items)
    ensures s == Tables([Batch(0, 0, "LOT", None, 1, 1, Active)], [Movement(Cause(GrnIn, 0, 0, 0), 0, 1, 0)])
  {
    assert [item][..0] == [];
    assert GoodsReceipts.PostItems(EMPTY, receipt, []) == EMPTY;
    s := GoodsReceipts.PostItem(EMPTY, receipt, item);
  }

  lemma HeldAndLogged(s: Tables)
    requires |s.batches| == 1 && s.batches[0].variant == 0
    requires |s.log| == 2 && s.log[0].cause.variant == 0
    requires s.log[1] == Movement(Cause(AdjustmentIn, 0, 0, 1), 0, 1, 0)
    ensures OnHand(s, 0, 1) == 0 && Logged(s, 0, 1) == 1
  {
    assert OnHand(s, 0, 1) == 0 + Sum(s.batches[1..], Held(0, 1));
    assert s.log[1..][0] == s.log[1] && s.log[1..][1..] == [];
    assert Logged(s, 0, 1) == 0 + Sum(s.log[1..], Under(0, 1));
    assert Sum(s.log[1..], Under(0, 1)) == 1 + Sum(s.log[1..][1..], Under(0, 1));
  }
}
