/** Documents and stock together: over whole runs, a goods receipt, a stock adjustment and a supplier return
    each move stock once, when they are posted; a sales return once more after each rejection. */
module DocumentsHistory {
  import opened Wrappers
  import opened Sums
  import opened Stock
  import opened Dispatch
  import G = GoodsReceipts
  import I = Inventory
  import R = Returns
  import H = OperationsHistory
  import opened DocumentLogs

  datatype State = State(docs: G.Documents, adjustments: seq<I.Adjustment>, supplierReturns: seq<R.ReturnDoc>,
    salesReturns: seq<R.ReturnDoc>, ops: Operations)

  datatype Step =
    | Grn(grn: G.Step)
    | CreateAdjustment(number: string, warehouse: WarehouseId, counts: seq<I.Count>)
    | UpdateAdjustment(adjustment: nat, moved: Option<WarehouseId>, counts: seq<I.Count>)
    | ApproveAdjustment(adjustment: nat)
    | PostAdjustment(adjustment: nat)
    | CreateReturn(items: seq<R.ReturnItem>)
    | UpdateReturn(supplierReturn: nat, items: seq<R.ReturnItem>)
    | ApproveReturn(supplierReturn: nat)
    | PostReturn(supplierReturn: nat)
    | CreateSales(items: seq<R.ReturnItem>)
    | ApproveSales(salesReturn: nat)
    | RejectSales(salesReturn: nat)
    | Other(operation: H.Step)

  /** No documents yet, and purchase orders that stay as they are but for their status. */
  function Start(orders: seq<G.PurchaseOrder>): State
  {
    State(G.Documents([], orders), [], [], [], H.NOTHING)
  }

  function Stocked(d: State, operation: H.Step): State
  {
    d.(ops := H.Apply(d.ops, operation))
  }

  predicate KnownVariants(products: map<VariantId, G.Product>, counts: seq<I.Count>)
  {
    forall i :: 0 <= i < |counts| ==> counts[i].variant in products
  }

  function ApplyGrn(d: State, products: map<VariantId, G.Product>, grn: G.Step): State
  {
    var posted := grn.PostGrn? && G.Post(d.docs, grn.id).Ok?;
    (if posted then Stocked(d, H.PostReceipt(d.docs.receipts[grn.id])) else d).(docs := G.Apply(d.docs, products, grn))
  }

  predicate CanPostAdjustment(d: State, id: nat)
  {
    && id < |d.adjustments| && d.adjustments[id].status == I.Approved
    && I.ApplyItems(d.ops.stock, d.adjustments[id], d.adjustments[id].items).Ok?
  }

  predicate CanPostReturn(d: State, id: nat)
  {
    && id < |d.supplierReturns| && d.supplierReturns[id].status !in {R.Posted, R.Cancelled} && d.supplierReturns[id].items != []
    && R.WithdrawItems(d.ops.stock, d.supplierReturns[id], d.supplierReturns[id].items).Ok?
  }

  predicate ReturnItems(items: seq<R.ReturnItem>)
  {
    items != [] && forall i :: 0 <= i < |items| ==> items[i].qty > 0
  }

  predicate CanApproveSales(d: State, id: nat)
  {
    id < |d.salesReturns| && d.salesReturns[id].status !in {R.Approved, R.Settled}
  }

  /** A document another step stands for. */
  predicate IsDocument(operation: H.Step)
  {
    operation.PostReceipt? || operation.PostAdjustment? || operation.PostSupplierReturn? || operation.ApproveSalesReturn?
  }

  function Apply(d: State, products: map<VariantId, G.Product>, step: Step): State
  {
    match step
    case Grn(grn) => ApplyGrn(d, products, grn)
    case CreateAdjustment(number, warehouse, counts) =>
      if KnownVariants(products, counts)
      then d.(adjustments := d.adjustments + [I.Adjustment(|d.adjustments|, number, warehouse, I.Draft,
                                                           I.PreparedItems(d.ops.stock, warehouse, counts))])
      else d
    case UpdateAdjustment(id, moved, counts) =>
      if id < |d.adjustments| && d.adjustments[id].status == I.Draft && KnownVariants(products, counts)
      then
        var adj := d.adjustments[id];
        var warehouse := if moved.Some? then moved.value else adj.warehouse;
        d.(adjustments := d.adjustments[id := adj.(warehouse := warehouse,
             items := if counts == [] then adj.items else I.PreparedItems(d.ops.stock, warehouse, counts))])
      else d
    case ApproveAdjustment(id) =>
      if id < |d.adjustments| && d.adjustments[id].status == I.Draft
      then d.(adjustments := d.adjustments[id := d.adjustments[id].(status := I.Approved)])
      else d
    case PostAdjustment(id) =>
      if CanPostAdjustment(d, id)
      then Stocked(d, H.PostAdjustment(d.adjustments[id])).(
             adjustments := d.adjustments[id := d.adjustments[id].(status := I.Posted)])
      else d
    case CreateReturn(items) =>
      if ReturnItems(items) then d.(supplierReturns := d.supplierReturns + [R.ReturnDoc(|d.supplierReturns|, R.Draft, items)]) else d
    case UpdateReturn(id, items) =>
      if id < |d.supplierReturns| && d.supplierReturns[id].status == R.Draft && ReturnItems(items)
      then d.(supplierReturns := d.supplierReturns[id := d.supplierReturns[id].(items := items)])
      else d
    case ApproveReturn(id) =>
      if id < |d.supplierReturns| && d.supplierReturns[id].status !in {R.Posted, R.Approved, R.Cancelled}
      then d.(supplierReturns := d.supplierReturns[id := d.supplierReturns[id].(status := R.Approved)])
      else d
    case PostReturn(id) =>
      if CanPostReturn(d, id)
      then Stocked(d, H.PostSupplierReturn(d.supplierReturns[id])).(
             supplierReturns := d.supplierReturns[id := d.supplierReturns[id].(status := R.Posted)])
      else d
    case CreateSales(items) => d.(salesReturns := d.salesReturns + [R.ReturnDoc(|d.salesReturns|, R.Draft, items)])
    case ApproveSales(id) =>
      if CanApproveSales(d, id)
      then Stocked(d, H.ApproveSalesReturn(d.salesReturns[id])).(
             salesReturns := d.salesReturns[id := d.salesReturns[id].(status := R.Approved)])
      else d
    case RejectSales(id) =>
      if id < |d.salesReturns|
      then d.(salesReturns := d.salesReturns[id := d.salesReturns[id].(status := R.Rejected)])
      else d
    case Other(operation) => if IsDocument(operation) then d else Stocked(d, operation)
  }

  function Run(d: State, products: map<VariantId, G.Product>, steps: seq<Step>): State
  {
    if steps == [] then d else Apply(Run(d, products, steps[..|steps| - 1]), products, steps[|steps| - 1])
  }

  // ---------------------------------------------------------------- every run

  /** All a document's totals of movements of other kinds than these stay as they are. */
  ghost predicate TotalsStay(s: Tables, after: Tables, but: set<MovementType>, id: nat)
  {
    forall kind: MovementType :: kind !in but ==>
      MovedIn(after, kind, id) == MovedIn(s, kind, id) && MovedOut(after, kind, id) == MovedOut(s, kind, id)
  }

  /** A writer changes no totals but those of its own document and kinds. */
  lemma LeavesTotals(s: Tables, after: Tables, kinds: set<MovementType>, document: nat, id: nat)
    requires LogsOnly(s, after, kinds, document)
    ensures TotalsStay(s, after, if id == document then kinds else {}, id)
  {
    forall kind: MovementType | kind !in kinds || id != document
      ensures MovedIn(after, kind, id) == MovedIn(s, kind, id) && MovedOut(after, kind, id) == MovedOut(s, kind, id)
    {
      LogsElsewhere(s, after, kinds, document, InOf(kind, id));
      LogsElsewhere(s, after, kinds, document, OutOf(kind, id));
    }
  }

  lemma LoadingTotals(o: Operations, trip: nat, id: nat)
    ensures Loading(o, trip).Ok? ==> TotalsStay(o.stock, Loading(o, trip).value.stock, {DispatchOut}, id)
  {
    if Loading(o, trip).Ok? && LoadItems(o.stock, trip, o.trips[trip].items).Ok? {
      LoadLogs(o.stock, trip, o.trips[trip].items);
      LeavesTotals(o.stock, LoadItems(o.stock, trip, o.trips[trip].items).value, {DispatchOut}, trip, id);
    }
  }

  /** Trips log dispatches only. */
  lemma OperationTotals(o: Operations, operation: H.Step, id: nat)
    requires !IsDocument(operation)
    ensures TotalsStay(o.stock, H.Apply(o, operation).stock, {DispatchOut}, id)
  {
    match operation
    case LoadTrip(trip) => LoadingTotals(o, trip, id);
    case StartTrip(trip, _) => LoadingTotals(o, trip, id);
    case _ =>
  }

  ghost predicate ReceiptMoved(s: Tables, receipts: seq<G.Receipt>, id: nat)
  {
    if id < |receipts|
    then receipts[id].id == id
      && MovedIn(s, GrnIn, id) == if receipts[id].status == G.Posted then Sum(receipts[id].items, G.Accepted) else 0
    else MovedIn(s, GrnIn, id) == 0
  }

  ghost predicate AdjustmentMoved(s: Tables, adjustments: seq<I.Adjustment>, id: nat)
  {
    if id < |adjustments|
    then adjustments[id].id == id
      && MovedIn(s, AdjustmentIn, id) == (if adjustments[id].status == I.Posted then Sum(adjustments[id].items, Up) else 0)
      && MovedOut(s, AdjustmentOut, id) == (if adjustments[id].status == I.Posted then Sum(adjustments[id].items, Down) else 0)
    else MovedIn(s, AdjustmentIn, id) == 0 && MovedOut(s, AdjustmentOut, id) == 0
  }

  ghost predicate ReturnMoved(s: Tables, supplierReturns: seq<R.ReturnDoc>, id: nat)
  {
    if id < |supplierReturns|
    then supplierReturns[id].id == id && (supplierReturns[id].status != R.Posted ==> MovedOut(s, ReturnOut, id) == 0)
    else MovedOut(s, ReturnOut, id) == 0
  }

  /** Ids are positions, and nothing was put back under a sales return not yet made. */
  ghost predicate SalesMoved(s: Tables, salesReturns: seq<R.ReturnDoc>, id: nat)
  {
    if id < |salesReturns| then salesReturns[id].id == id else MovedIn(s, ReturnIn, id) == 0
  }

  /** What the log holds under the documents of an id. */
  ghost predicate DocumentsMoved(d: State, id: nat)
  {
    && ReceiptMoved(d.ops.stock, d.docs.receipts, id)
    && AdjustmentMoved(d.ops.stock, d.adjustments, id)
    && ReturnMoved(d.ops.stock, d.supplierReturns, id)
    && SalesMoved(d.ops.stock, d.salesReturns, id)
  }

  ghost predicate Sound(d: State)
  {
    && Books(d.ops.stock)
    && G.SoundReceipts(d.docs.receipts)
    && forall id: nat :: DocumentsMoved(d, id)
  }

  /** What posted documents of an id keep: their row, and what they moved. */
  ghost predicate FrozenAt(d: State, after: State, id: nat)
  {
    && (id < |d.docs.receipts| ==>
          id < |after.docs.receipts| && (d.docs.receipts[id].status == G.Posted ==> after.docs.receipts[id] == d.docs.receipts[id]))
    && (id < |d.adjustments| ==>
          id < |after.adjustments| && (d.adjustments[id].status == I.Posted ==> after.adjustments[id] == d.adjustments[id]))
    && (id < |d.supplierReturns| ==>
          id < |after.supplierReturns|
          && (d.supplierReturns[id].status == R.Posted ==>
                after.supplierReturns[id] == d.supplierReturns[id]
                && MovedOut(after.ops.stock, ReturnOut, id) == MovedOut(d.ops.stock, ReturnOut, id)))
  }

  ghost predicate Frozen(d: State, after: State)
  {
    forall id: nat :: FrozenAt(d, after, id)
  }

  lemma TripsKeep(d: State, operation: H.Step)
    requires Sound(d) && !IsDocument(operation)
    ensures Sound(Stocked(d, operation)) && Frozen(d, Stocked(d, operation))
  {
    var after := Stocked(d, operation);
    H.StepBooks(d.ops, operation);
    forall id: nat ensures DocumentsMoved(after, id) && FrozenAt(d, after, id) {
      assert DocumentsMoved(d, id);
      OperationTotals(d.ops, operation, id);
    }
  }

  /** Approving a sales return puts goods back under it, and under no other document. */
  lemma ApproveSalesKeeps(d: State, products: map<VariantId, G.Product>, n: nat)
    requires Sound(d) && CanApproveSales(d, n)
    ensures var after := Apply(d, products, ApproveSales(n)); Sound(after) && Frozen(d, after)
  {
    var s, doc, after := d.ops.stock, d.salesReturns[n], Apply(d, products, ApproveSales(n));
    H.StepBooks(d.ops, H.ApproveSalesReturn(doc));
    assert DocumentsMoved(d, n);
    RestockLogs(s, doc, doc.items);
    forall id: nat ensures DocumentsMoved(after, id) && FrozenAt(d, after, id) {
      assert DocumentsMoved(d, id);
      LeavesTotals(s, after.ops.stock, {ReturnIn}, n, id);
    }
  }

  /** Posting a receipt: its total becomes what it accepted, no other document's moves. */
  lemma PostReceiptKeeps(d: State, products: map<VariantId, G.Product>, n: nat)
    requires Sound(d) && G.Post(d.docs, n).Ok?
    ensures var after := ApplyGrn(d, products, G.PostGrn(n)); Sound(after) && Frozen(d, after)
  {
    var s, receipt, after := d.ops.stock, d.docs.receipts[n], ApplyGrn(d, products, G.PostGrn(n));
    H.StepBooks(d.ops, H.PostReceipt(receipt));
    assert after.docs.receipts == d.docs.receipts[n := receipt.(status := G.Posted)];
    assert DocumentsMoved(d, n);
    assert forall j :: 0 <= j < |receipt.items| ==> G.SoundItem(receipt.items[j]);
    ReceiptLogs(s, receipt, receipt.items);
    forall id: nat ensures DocumentsMoved(after, id) && FrozenAt(d, after, id) {
      assert DocumentsMoved(d, id);
      LeavesTotals(s, after.ops.stock, {GrnIn}, n, id);
    }
  }

  lemma PostAdjustmentKeeps(d: State, products: map<VariantId, G.Product>, n: nat)
    requires Sound(d) && CanPostAdjustment(d, n)
    ensures var after := Apply(d, products, PostAdjustment(n)); Sound(after) && Frozen(d, after)
  {
    var s, adj, after := d.ops.stock, d.adjustments[n], Apply(d, products, PostAdjustment(n));
    H.StepBooks(d.ops, H.PostAdjustment(adj));
    assert DocumentsMoved(d, n);
    AdjustmentLogs(s, adj, adj.items);
    forall id: nat ensures DocumentsMoved(after, id) && FrozenAt(d, after, id) {
      assert DocumentsMoved(d, id);
      LeavesTotals(s, after.ops.stock, {AdjustmentIn, AdjustmentOut}, n, id);
    }
  }

  /** Posting a supplier return moves out its quantities on batches in the table, once. */
  lemma PostReturnKeeps(d: State, products: map<VariantId, G.Product>, n: nat)
    requires Sound(d) && CanPostReturn(d, n)
    ensures var after := Apply(d, products, PostReturn(n));
      && Sound(after) && Frozen(d, after)
      && MovedOut(after.ops.stock, ReturnOut, n) == Sum(d.supplierReturns[n].items, Withdrawn(|d.ops.stock.batches|))
  {
    var s, doc, after := d.ops.stock, d.supplierReturns[n], Apply(d, products, PostReturn(n));
    H.StepBooks(d.ops, H.PostSupplierReturn(doc));
    assert DocumentsMoved(d, n);
    WithdrawLogs(s, doc, doc.items);
    forall id: nat ensures DocumentsMoved(after, id) && FrozenAt(d, after, id) {
      assert DocumentsMoved(d, id);
      LeavesTotals(s, after.ops.stock, {ReturnOut}, n, id);
    }
  }

  /** A step that posts or approves nothing that moves stock. */
  predicate IsDraft(d: State, step: Step)
  {
    match step
    case Grn(grn) => !(grn.PostGrn? && G.Post(d.docs, grn.id).Ok?)
    case PostAdjustment(id) => !CanPostAdjustment(d, id)
    case PostReturn(id) => !CanPostReturn(d, id)
    case ApproveSales(id) => !CanApproveSales(d, id)
    case Other(operation) => IsDocument(operation)
    case _ => true
  }

  lemma DraftReceiptMoves(d: State, products: map<VariantId, G.Product>, grn: G.Step, id: nat)
    requires DocumentsMoved(d, id) && IsDraft(d, Grn(grn))
    ensures DocumentsMoved(Apply(d, products, Grn(grn)), id)
  {
  }

  predicate OfAdjustment(step: Step)
  {
    step.CreateAdjustment? || step.UpdateAdjustment? || step.ApproveAdjustment? || step.PostAdjustment?
  }

  lemma DraftAdjustmentMoves(d: State, products: map<VariantId, G.Product>, step: Step, id: nat)
    requires DocumentsMoved(d, id) && IsDraft(d, step) && OfAdjustment(step)
    ensures DocumentsMoved(Apply(d, products, step), id)
  {
  }

  lemma DraftReturnMoves(d: State, products: map<VariantId, G.Product>, step: Step, id: nat)
    requires DocumentsMoved(d, id) && IsDraft(d, step) && !OfAdjustment(step) && !step.Grn?
    ensures DocumentsMoved(Apply(d, products, step), id)
  {
  }

  lemma DraftFreezes(d: State, products: map<VariantId, G.Product>, step: Step, id: nat)
    requires IsDraft(d, step)
    ensures FrozenAt(d, Apply(d, products, step), id)
  {
  }

  /** A draft step changes no stock and no posted document. */
  lemma DraftKeeps(d: State, products: map<VariantId, G.Product>, step: Step)
    requires Sound(d) && IsDraft(d, step)
    ensures Sound(Apply(d, products, step)) && Frozen(d, Apply(d, products, step))
  {
    if step.Grn? { G.StepSound(d.docs, products, step.grn); }
    forall id: nat ensures DocumentsMoved(Apply(d, products, step), id) && FrozenAt(d, Apply(d, products, step), id) {
      if step.Grn? { DraftReceiptMoves(d, products, step.grn, id); }
      else if OfAdjustment(step) { DraftAdjustmentMoves(d, products, step, id); }
      else { DraftReturnMoves(d, products, step, id); }
      DraftFreezes(d, products, step, id);
    }
  }

  lemma StepKeeps(d: State, products: map<VariantId, G.Product>, step: Step)
    requires Sound(d)
    ensures Sound(Apply(d, products, step)) && Frozen(d, Apply(d, products, step))
  {
    if IsDraft(d, step) {
      DraftKeeps(d, products, step);
    } else {
      match step {
        case Grn(grn) => PostReceiptKeeps(d, products, grn.id);
        case PostAdjustment(id) => PostAdjustmentKeeps(d, products, id);
        case PostReturn(id) => PostReturnKeeps(d, products, id);
        case ApproveSales(id) => ApproveSalesKeeps(d, products, id);
        case Other(operation) => TripsKeep(d, operation);
      }
    }
  }

  /** Over every run of receipts, adjustments, supplier returns, sales returns and trips: under a receipt the
      log holds exactly what it accepted once it is posted and nothing before; under an adjustment exactly what
      its lines add and take; under a supplier return nothing before it is posted. */
  lemma {:induction false} DocumentsMoveOnce(orders: seq<G.PurchaseOrder>, products: map<VariantId, G.Product>, steps: seq<Step>)
    ensures Sound(Run(Start(orders), products, steps))
  {
    if steps != [] {
      DocumentsMoveOnce(orders, products, steps[..|steps| - 1]);
      StepKeeps(Run(Start(orders), products, steps[..|steps| - 1]), products, steps[|steps| - 1]);
    }
  }

  /** Between any two moments of a run, a posted document keeps its row, and no later step moves stock under it. */
  lemma {:induction false} PostedIsFinal(orders: seq<G.PurchaseOrder>, products: map<VariantId, G.Product>, steps: seq<Step>, n: nat)
    requires n <= |steps|
    ensures Frozen(Run(Start(orders), products, steps[..n]), Run(Start(orders), products, steps))
    decreases |steps|
  {
    if n == |steps| {
      assert steps[..n] == steps;
    } else {
      var init := steps[..|steps| - 1];
      assert init[..n] == steps[..n];
      PostedIsFinal(orders, products, init, n);
      DocumentsMoveOnce(orders, products, init);
      StepKeeps(Run(Start(orders), products, init), products, steps[|steps| - 1]);
      var first, before, after := Run(Start(orders), products, steps[..n]), Run(Start(orders), products, init), Run(Start(orders), products, steps);
      forall id: nat ensures FrozenAt(first, after, id) {
        assert FrozenAt(first, before, id) && FrozenAt(before, after, id);
      }
    }
  }

  // ---------------------------------------------------------------- how documents come to be posted

  /** A receipt's row from one step to the next: drafts change as drafts, are approved, and only approved
      receipts with lines are posted. */
  predicate ReceiptNext(was: G.Receipt, now: G.Receipt)
  {
    || now == was
    || (was.status == G.Draft && now.status == G.Draft)
    || (was.status in {G.Draft, G.Approved} && now == was.(status := G.Approved))
    || (was.status == G.Approved && was.items != [] && now == was.(status := G.Posted))
  }

  predicate AdjustmentNext(was: I.Adjustment, now: I.Adjustment)
  {
    || now == was
    || (was.status == I.Draft && now.status == I.Draft)
    || (was.status == I.Draft && now == was.(status := I.Approved))
    || (was.status == I.Approved && now == was.(status := I.Posted))
  }

  /** Each document changes as it should, and new ones are drafts. */
  ghost predicate Evolve(d: State, after: State)
  {
    && |d.docs.receipts| <= |after.docs.receipts| && |d.adjustments| <= |after.adjustments|
    && (forall id :: 0 <= id < |d.docs.receipts| ==> ReceiptNext(d.docs.receipts[id], after.docs.receipts[id]))
    && (forall id :: |d.docs.receipts| <= id < |after.docs.receipts| ==> after.docs.receipts[id].status == G.Draft)
    && (forall id :: 0 <= id < |d.adjustments| ==> AdjustmentNext(d.adjustments[id], after.adjustments[id]))
    && (forall id :: |d.adjustments| <= id < |after.adjustments| ==> after.adjustments[id].status == I.Draft)
  }

  /** No step takes a receipt or adjustment past its approval, or changes what was approved. */
  lemma StepEvolves(d: State, products: map<VariantId, G.Product>, step: Step)
    ensures Evolve(d, Apply(d, products, step))
  {
    if step.Grn? { GrnEvolves(d.docs, products, step.grn); }
  }

  lemma GrnEvolves(d: G.Documents, products: map<VariantId, G.Product>, grn: G.Step)
    ensures var after := G.Apply(d, products, grn);
      && |d.receipts| <= |after.receipts|
      && (forall id :: 0 <= id < |d.receipts| ==> ReceiptNext(d.receipts[id], after.receipts[id]))
      && (forall id :: |d.receipts| <= id < |after.receipts| ==> after.receipts[id].status == G.Draft)
  {
  }

  /** Whether a receipt's row stood approved, as it was posted, at some moment of the run. */
  predicate WasApproved(d: State, products: map<VariantId, G.Product>, steps: seq<Step>, id: nat, row: G.Receipt)
  {
    || (var now := Run(d, products, steps).docs.receipts; id < |now| && now[id] == row.(status := G.Approved))
    || (steps != [] && WasApproved(d, products, steps[..|steps| - 1], id, row))
  }

  /** Over any run a posted receipt stood approved before, with the very lines it was posted with. */
  lemma {:induction false} PostedWasApproved(orders: seq<G.PurchaseOrder>, products: map<VariantId, G.Product>, steps: seq<Step>, id: nat)
    ensures var receipts := Run(Start(orders), products, steps).docs.receipts;
      id < |receipts| && receipts[id].status == G.Posted ==>
        receipts[id].items != [] && WasApproved(Start(orders), products, steps, id, receipts[id])
  {
    if steps != [] {
      var init := steps[..|steps| - 1];
      PostedWasApproved(orders, products, init, id);
      var was, now := Run(Start(orders), products, init), Run(Start(orders), products, steps);
      StepEvolves(was, products, steps[|steps| - 1]);
      if id < |now.docs.receipts| && now.docs.receipts[id].status == G.Posted {
        assert id < |was.docs.receipts| && ReceiptNext(was.docs.receipts[id], now.docs.receipts[id]);
        assert WasApproved(Start(orders), products, init, id, now.docs.receipts[id]);
      }
    }
  }

  // ---------------------------------------------------------------- sales returns

  /** Whether the step is an approval of the sales return that is accepted. */
  predicate Approves(d: State, step: Step, id: nat)
  {
    step.ApproveSales? && step.salesReturn == id && CanApproveSales(d, id)
  }

  /** Whether the step rejects the sales return while it stands approved. */
  predicate Undoes(d: State, step: Step, id: nat)
  {
    step.RejectSales? && step.salesReturn == id && id < |d.salesReturns| && d.salesReturns[id].status == R.Approved
  }

  /** A step puts goods back under a sales return exactly when it is an accepted approval of it. */
  lemma StepReturns(d: State, products: map<VariantId, G.Product>, step: Step, id: nat)
    requires Sound(d)
    ensures MovedIn(Apply(d, products, step).ops.stock, ReturnIn, id) == MovedIn(d.ops.stock, ReturnIn, id)
         + if Approves(d, step, id) then Sum(d.salesReturns[id].items, Restocked(|d.ops.stock.batches|)) else 0
  {
    var s := d.ops.stock;
    if !IsDraft(d, step) {
      var t := Apply(d, products, step).ops.stock;
      match step {
        case Grn(grn) =>
          var receipt := d.docs.receipts[grn.id];
          assert forall j :: 0 <= j < |receipt.items| ==> G.SoundItem(receipt.items[j]);
          ReceiptLogs(s, receipt, receipt.items);
          LeavesTotals(s, t, {GrnIn}, receipt.id, id);
        case PostAdjustment(n) =>
          AdjustmentLogs(s, d.adjustments[n], d.adjustments[n].items);
          LeavesTotals(s, t, {AdjustmentIn, AdjustmentOut}, d.adjustments[n].id, id);
        case PostReturn(n) =>
          WithdrawLogs(s, d.supplierReturns[n], d.supplierReturns[n].items);
          LeavesTotals(s, t, {ReturnOut}, d.supplierReturns[n].id, id);
        case ApproveSales(n) =>
          assert DocumentsMoved(d, n);
          RestockLogs(s, d.salesReturns[n], d.salesReturns[n].items);
          LeavesTotals(s, t, {ReturnIn}, n, id);
        case Other(operation) => OperationTotals(d.ops, operation, id);
      }
    }
  }

  /** What the accepted approvals of a sales return put back, each on the tables of its moment. */
  function PutBack(d: State, products: map<VariantId, G.Product>, steps: seq<Step>, id: nat): int
  {
    if steps == [] then 0
    else
      var init := steps[..|steps| - 1];
      var now := Run(d, products, init);
      PutBack(d, products, init, id)
      + if Approves(now, steps[|steps| - 1], id) then Sum(now.salesReturns[id].items, Restocked(|now.ops.stock.batches|)) else 0
  }

  /** How often the sales return was approved, and how often an approval was undone. */
  function Approvals(d: State, products: map<VariantId, G.Product>, steps: seq<Step>, id: nat): nat
  {
    if steps == [] then 0
    else
      var init := steps[..|steps| - 1];
      Approvals(d, products, init, id) + if Approves(Run(d, products, init), steps[|steps| - 1], id) then 1 else 0
  }

  function Undone(d: State, products: map<VariantId, G.Product>, steps: seq<Step>, id: nat): nat
  {
    if steps == [] then 0
    else
      var init := steps[..|steps| - 1];
      Undone(d, products, init, id) + if Undoes(Run(d, products, init), steps[|steps| - 1], id) then 1 else 0
  }

  /** Over any run the log holds under a sales return exactly what its accepted approvals put back; and it is
      approved once, plus once for every time an approval was undone by a rejection. */
  lemma {:induction false} SalesReturnsOverRuns(orders: seq<G.PurchaseOrder>, products: map<VariantId, G.Product>, steps: seq<Step>, id: nat)
    ensures var d := Run(Start(orders), products, steps);
      && MovedIn(d.ops.stock, ReturnIn, id) == PutBack(Start(orders), products, steps, id)
      && Approvals(Start(orders), products, steps, id)
         == Undone(Start(orders), products, steps, id)
          + if id < |d.salesReturns| && d.salesReturns[id].status == R.Approved then 1 else 0
  {
    if steps != [] {
      var init := steps[..|steps| - 1];
      var now := Run(Start(orders), products, init);
      SalesReturnsOverRuns(orders, products, init, id);
      DocumentsMoveOnce(orders, products, init);
      StepReturns(now, products, steps[|steps| - 1], id);
      StatusSettles(now, products, steps[|steps| - 1], id);
    }
  }

  predicate StandsApproved(d: State, id: nat)
  {
    id < |d.salesReturns| && d.salesReturns[id].status == R.Approved
  }

  /** The status of a sales return turns to approved by an approval, and back only by a rejection. */
  lemma StatusSettles(d: State, products: map<VariantId, G.Product>, step: Step, id: nat)
    ensures StandsApproved(Apply(d, products, step), id) <==> Approves(d, step, id) || (StandsApproved(d, id) && !Undoes(d, step, id))
    ensures Approves(d, step, id) ==> !StandsApproved(d, id)
  {
  }

  /** As it happens: a sales return approved and then rejected is approved again, and puts its goods back again. */
  lemma RestockedTwice(orders: seq<G.PurchaseOrder>, products: map<VariantId, G.Product>, items: seq<R.ReturnItem>)
    ensures var made := Apply(Start(orders), products, CreateSales(items));
      var rejected := Apply(Apply(made, products, ApproveSales(0)), products, RejectSales(0));
      Approves(made, ApproveSales(0), 0) && Approves(rejected, ApproveSales(0), 0)
  {
  }
}
