/** What each stock writer logs, and under which document. */
module DocumentLogs {
  import opened Wrappers
  import opened Sums
  import opened Sorting
  import opened Greedy
  import opened Stock
  import opened Fefo
  import opened Dispatch
  import G = GoodsReceipts
  import I = Inventory
  import R = Returns

  // ---------------------------------------------------------------- what a document moved

  function InOf(kind: MovementType, document: nat): Movement -> int
  {
    (m: Movement) => if m.cause.kind == kind && m.cause.reference == document then m.qtyIn else 0
  }

  function OutOf(kind: MovementType, document: nat): Movement -> int
  {
    (m: Movement) => if m.cause.kind == kind && m.cause.reference == document then m.qtyOut else 0
  }

  function MovedIn(s: Tables, kind: MovementType, document: nat): int { Sum(s.log, InOf(kind, document)) }

  function MovedOut(s: Tables, kind: MovementType, document: nat): int { Sum(s.log, OutOf(kind, document)) }

  function Up(item: I.AdjustmentItem): int { Max(item.diff, 0) }

  function Down(item: I.AdjustmentItem): int { Max(-item.diff, 0) }

  /** Weighs a return item by its quantity when its batch is in the table. */
  function Withdrawn(size: nat): R.ReturnItem -> int
  {
    (item: R.ReturnItem) => if item.batch.Some? && item.batch.value < size then item.qty else 0
  }

  /** Weighs a return item by its quantity when it goes back on a batch in the table. */
  function Restocked(size: nat): R.ReturnItem -> int
  {
    (item: R.ReturnItem) => if item.restock && item.batch.Some? && item.batch.value < size then item.qty else 0
  }

  /** `after` logs more, under one document and movements of these kinds only. */
  ghost predicate LogsOnly(s: Tables, after: Tables, kinds: set<MovementType>, document: nat)
  {
    && |s.log| <= |after.log| && after.log[..|s.log|] == s.log
    && forall i :: |s.log| <= i < |after.log| ==> after.log[i].cause.kind in kinds && after.log[i].cause.reference == document
  }

  lemma LogsOnlyBoth(s: Tables, mid: Tables, after: Tables, kinds: set<MovementType>, document: nat)
    requires LogsOnly(s, mid, kinds, document) && LogsOnly(mid, after, kinds, document)
    ensures LogsOnly(s, after, kinds, document)
  {
    assert after.log[..|s.log|] == after.log[..|mid.log|][..|s.log|];
    forall i | |s.log| <= i < |mid.log| ensures after.log[i].cause.kind in kinds && after.log[i].cause.reference == document {
      assert after.log[i] == after.log[..|mid.log|][i];
    }
  }

  lemma LogsElsewhere(s: Tables, after: Tables, kinds: set<MovementType>, document: nat, f: Movement -> int)
    requires LogsOnly(s, after, kinds, document)
    requires forall m: Movement :: m.cause.kind in kinds && m.cause.reference == document ==> f(m) == 0
    ensures Sum(after.log, f) == Sum(s.log, f)
  {
    var more := after.log[|s.log|..];
    assert after.log == s.log + more;
    SumConcat(s.log, more, f);
    forall i | 0 <= i < |more| ensures f(more[i]) == 0 { assert more[i] == after.log[|s.log| + i]; }
    SumZero(more, f);
  }

  // ---------------------------------------------------------------- each writer, on the log

  lemma {:induction false} DrainLogsOnly(s: Tables, ids: seq<BatchId>, qty: int, cause: Cause)
    requires InTable(s, ids)
    ensures LogsOnly(s, Drain(s, ids, qty, cause), {cause.kind}, cause.reference)
    decreases |ids|
  {
    if ids != [] && qty > 0 {
      var held := s.batches[ids[0]].available;
      if held <= 0 {
        DrainLogsOnly(s, ids[1..], qty, cause);
      } else {
        var next := Issue(s, ids[0], Min(held, qty), cause);
        DrainLogsOnly(next, ids[1..], qty - Min(held, qty), cause);
        LogsOnlyBoth(s, next, Drain(s, ids, qty, cause), {cause.kind}, cause.reference);
      }
    }
  }

  lemma {:induction false} ReceiptLogs(s: Tables, receipt: G.Receipt, items: seq<G.GrnItem>)
    requires forall i :: 0 <= i < |items| ==> items[i].accepted >= 0
    ensures var after := G.PostItems(s, receipt, items);
      && LogsOnly(s, after, {GrnIn}, receipt.id)
      && MovedIn(after, GrnIn, receipt.id) == MovedIn(s, GrnIn, receipt.id) + Sum(items, G.Accepted)
  {
    if items != [] {
      var init, item := items[..|items| - 1], items[|items| - 1];
      ReceiptLogs(s, receipt, init);
      SumLast(items, G.Accepted);
      var before, after := G.PostItems(s, receipt, init), G.PostItems(s, receipt, items);
      if item.accepted > 0 {
        SumAppend(before.log, after.log[|before.log|], InOf(GrnIn, receipt.id));
        LogsOnlyBoth(s, before, after, {GrnIn}, receipt.id);
      }
    }
  }

  /** One adjustment line moves in what it adds and out what it takes. */
  lemma AdjustmentItemLogs(s: Tables, adj: I.Adjustment, item: I.AdjustmentItem)
    requires Books(s) && I.ApplyItem(s, adj, item).Ok?
    ensures var after := I.ApplyItem(s, adj, item).value;
      && LogsOnly(s, after, {AdjustmentIn, AdjustmentOut}, adj.id)
      && MovedIn(after, AdjustmentIn, adj.id) == MovedIn(s, AdjustmentIn, adj.id) + Up(item)
      && MovedOut(after, AdjustmentOut, adj.id) == MovedOut(s, AdjustmentOut, adj.id) + Down(item)
  {
    var after := I.ApplyItem(s, adj, item).value;
    if item.diff > 0 {
      SumAppend(s.log, after.log[|s.log|], InOf(AdjustmentIn, adj.id));
      SumAppend(s.log, after.log[|s.log|], OutOf(AdjustmentOut, adj.id));
    } else if item.diff < 0 {
      NegativeLogs(s, adj, item);
    }
  }

  lemma NegativeLogs(s: Tables, adj: I.Adjustment, item: I.AdjustmentItem)
    requires Books(s) && item.diff < 0 && I.ApplyItem(s, adj, item).Ok?
    ensures var after := I.ApplyItem(s, adj, item).value;
      && LogsOnly(s, after, {AdjustmentIn, AdjustmentOut}, adj.id)
      && MovedIn(after, AdjustmentIn, adj.id) == MovedIn(s, AdjustmentIn, adj.id)
      && MovedOut(after, AdjustmentOut, adj.id) == MovedOut(s, AdjustmentOut, adj.id) - item.diff
  {
    var ids := I.NegativeIds(s, adj, item);
    var cause := Cause(AdjustmentOut, adj.id, adj.warehouse, item.variant);
    if item.batch.None? { FefoIdsMatch(s, adj.warehouse, item.variant); }
    BooksStock(s, ids);
    LiveShelf(s, ids);
    DrainLogsOnly(s, ids, -item.diff, cause);
    LogsElsewhere(s, Drain(s, ids, -item.diff, cause), {AdjustmentOut}, adj.id, InOf(AdjustmentIn, adj.id));
    var select := (c: Cause) => c.kind == AdjustmentOut && c.reference == adj.id;
    DrainLogs(s, ids, -item.diff, cause, OutOf(AdjustmentOut, adj.id), select);
  }

  lemma {:induction false} AdjustmentLogs(s: Tables, adj: I.Adjustment, items: seq<I.AdjustmentItem>)
    requires Books(s) && I.ApplyItems(s, adj, items).Ok?
    ensures var after := I.ApplyItems(s, adj, items).value;
      && LogsOnly(s, after, {AdjustmentIn, AdjustmentOut}, adj.id)
      && MovedIn(after, AdjustmentIn, adj.id) == MovedIn(s, AdjustmentIn, adj.id) + Sum(items, Up)
      && MovedOut(after, AdjustmentOut, adj.id) == MovedOut(s, AdjustmentOut, adj.id) + Sum(items, Down)
    decreases |items|
  {
    if items != [] {
      var next := I.ApplyItem(s, adj, items[0]).value;
      AdjustmentItemLogs(s, adj, items[0]);
      I.ApplyItemKeepsBooks(s, adj, items[0]);
      AdjustmentLogs(next, adj, items[1..]);
      LogsOnlyBoth(s, next, I.ApplyItems(s, adj, items).value, {AdjustmentIn, AdjustmentOut}, adj.id);
    }
  }

  lemma {:induction false} WithdrawLogs(s: Tables, doc: R.ReturnDoc, items: seq<R.ReturnItem>)
    requires R.WithdrawItems(s, doc, items).Ok?
    ensures var after := R.WithdrawItems(s, doc, items).value;
      && |after.batches| == |s.batches|
      && LogsOnly(s, after, {ReturnOut}, doc.id)
      && MovedOut(after, ReturnOut, doc.id) == MovedOut(s, ReturnOut, doc.id) + Sum(items, Withdrawn(|s.batches|))
  {
    if items != [] {
      var init, item := items[..|items| - 1], items[|items| - 1];
      WithdrawLogs(s, doc, init);
      SumLast(items, Withdrawn(|s.batches|));
      var before, after := R.WithdrawItems(s, doc, init).value, R.WithdrawItems(s, doc, items).value;
      if item.qty > 0 && R.BatchOf(before, item).Some? {
        SumAppend(before.log, after.log[|before.log|], OutOf(ReturnOut, doc.id));
        LogsOnlyBoth(s, before, after, {ReturnOut}, doc.id);
      }
    }
  }

  lemma {:induction false} RestockLogs(s: Tables, doc: R.ReturnDoc, items: seq<R.ReturnItem>)
    ensures var after := R.RestockItems(s, doc, items);
      && |after.batches| == |s.batches|
      && LogsOnly(s, after, {ReturnIn}, doc.id)
      && MovedIn(after, ReturnIn, doc.id) == MovedIn(s, ReturnIn, doc.id) + Sum(items, Restocked(|s.batches|))
  {
    if items != [] {
      var init, item := items[..|items| - 1], items[|items| - 1];
      RestockLogs(s, doc, init);
      SumLast(items, Restocked(|s.batches|));
      var before, after := R.RestockItems(s, doc, init), R.RestockItems(s, doc, items);
      if item.restock && R.BatchOf(before, item).Some? {
        SumAppend(before.log, after.log[|before.log|], InOf(ReturnIn, doc.id));
        LogsOnlyBoth(s, before, after, {ReturnIn}, doc.id);
      }
    }
  }

  lemma {:induction false} LoadLogs(s: Tables, trip: nat, items: seq<TripItem>)
    requires LoadItems(s, trip, items).Ok?
    ensures LogsOnly(s, LoadItems(s, trip, items).value, {DispatchOut}, trip)
    decreases |items|
  {
    if items != [] {
      var next := LoadItem(s, trip, items[0]).value;
      if items[0].planned > 0 {
        DrainLogsOnly(s, FefoIds(s, items[0].warehouse, items[0].variant), items[0].planned, LoadCause(trip, items[0]));
      }
      LoadLogs(next, trip, items[1..]);
      LogsOnlyBoth(s, next, LoadItems(s, trip, items).value, {DispatchOut}, trip);
    }
  }
}
