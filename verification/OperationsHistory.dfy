/** Whole runs of the operations services over the shared tables: the stock books, and each trip's
    planned, issued, loaded and handled quantities. */
module OperationsHistory {
  import opened Wrappers
  import opened Sums
  import opened Sorting
  import opened Tally
  import opened Stock
  import opened Fefo
  import opened Orders
  import opened Dispatch
  import opened Delivery
  import GoodsReceipts
  import Inventory
  import Returns

  /** One committed or rejected service call. */
  datatype Step =
    | PostReceipt(receipt: GoodsReceipts.Receipt)
    | PostAdjustment(adjustment: Inventory.Adjustment)
    | ApproveSalesReturn(salesReturn: Returns.ReturnDoc)
    | PostSupplierReturn(supplierReturn: Returns.ReturnDoc)
    | PlanTrip(orders: seq<Order>, sequence: map<nat, int>, warehouse: Option<WarehouseId>, cycle: nat, route: nat)
    | LoadTrip(trip: nat)
    | StartTrip(trip: nat, creditAllowed: bool)
    | CompleteTrip(trip: nat)
    | UpdateStop(trip: nat, stop: nat, update: StopUpdate, zeroIsAbsent: bool)

  const NOTHING := Operations(EMPTY, [])

  function OrKeep(o: Operations, r: Result<Operations>): Operations
  {
    if r.Ok? then r.value else o
  }

  function Apply(o: Operations, step: Step): Operations
  {
    match step
    case PostReceipt(receipt) => o.(stock := GoodsReceipts.PostItems(o.stock, receipt, receipt.items))
    case PostAdjustment(adj) =>
      var r := Inventory.ApplyItems(o.stock, adj, adj.items);
      o.(stock := if r.Ok? then r.value else o.stock)
    case ApproveSalesReturn(doc) => o.(stock := Returns.RestockItems(o.stock, doc, doc.items))
    case PostSupplierReturn(doc) =>
      var r := Returns.WithdrawItems(o.stock, doc, doc.items);
      o.(stock := if r.Ok? then r.value else o.stock)
    case PlanTrip(orders, sequence, warehouse, cycle, route) =>
      var r := Planning(o.trips, orders, sequence, warehouse, cycle, route);
      o.(trips := if r.Ok? then o.trips + [r.value] else o.trips)
    case LoadTrip(id) => OrKeep(o, Loading(o, id))
    case StartTrip(id, creditAllowed) => Starting(o, id, creditAllowed).after
    case CompleteTrip(id) => OrKeep(o, Completing(o, id))
    case UpdateStop(id, stop, update, zeroIsAbsent) => OrKeep(o, Updating(o, id, stop, update, zeroIsAbsent))
  }

  function Run(o: Operations, steps: seq<Step>): Operations
  {
    if steps == [] then o else Apply(Run(o, steps[..|steps| - 1]), steps[|steps| - 1])
  }

  // ---------------------------------------------------------------- the stock books

  /** How far one step takes a batch below what it holds: only supplier returns can. */
  function StepExcess(o: Operations, step: Step, id: BatchId): nat
  {
    if step.PostSupplierReturn? && Returns.WithdrawItems(o.stock, step.supplierReturn, step.supplierReturn.items).Ok?
    then Returns.Excess(o.stock, step.supplierReturn, step.supplierReturn.items, id)
    else 0
  }

  function Overdrawn(o: Operations, steps: seq<Step>, id: BatchId): nat
  {
    if steps == [] then 0
    else
      var init := steps[..|steps| - 1];
      Overdrawn(o, init, id) + StepExcess(Run(o, init), steps[|steps| - 1], id)
  }

  lemma StepBooks(o: Operations, step: Step)
    requires Books(o.stock)
    ensures Books(Apply(o, step).stock) && |o.stock.batches| <= |Apply(o, step).stock.batches|
    ensures forall id: nat :: Slack(Apply(o, step).stock, id) == Slack(o.stock, id) + StepExcess(o, step, id)
  {
    match step
    case PostReceipt(receipt) => GoodsReceipts.PostItemsKeepsBooks(o.stock, receipt, receipt.items);
    case PostAdjustment(adj) =>
      if Inventory.ApplyItems(o.stock, adj, adj.items).Ok? { Inventory.ApplyItemsKeepsBooks(o.stock, adj, adj.items); }
    case ApproveSalesReturn(doc) => Returns.RestockItemsKeepsBooks(o.stock, doc, doc.items);
    case PostSupplierReturn(doc) =>
      if Returns.WithdrawItems(o.stock, doc, doc.items).Ok? { Returns.WithdrawItemsExcess(o.stock, doc, doc.items); }
    case LoadTrip(id) => LoadingKeepsBooks(o, id);
    case StartTrip(id, _) => LoadingKeepsBooks(o, id);
    case _ =>
  }

  lemma LoadingKeepsBooks(o: Operations, id: nat)
    requires Books(o.stock)
    ensures Loading(o, id).Ok? ==> KeepsBooks(o.stock, Loading(o, id).value.stock)
  {
    if id < |o.trips| && LoadItems(o.stock, id, o.trips[id].items).Ok? {
      LoadItemsKeepsBooks(o.stock, id, o.trips[id].items);
    }
  }

  /** After every run of all the stock writers, in any order: every batch is non-negative, its received
      quantity is what non-return movements brought in, and the shelf exceeds the movement log by exactly
      what supplier returns took beyond their batches. */
  lemma {:induction false} LedgerOverRuns(steps: seq<Step>)
    ensures var s := Run(NOTHING, steps).stock;
      && Books(s)
      && forall id: nat :: Slack(s, id) == Overdrawn(NOTHING, steps, id)
  {
    if steps != [] {
      LedgerOverRuns(steps[..|steps| - 1]);
      StepBooks(Run(NOTHING, steps[..|steps| - 1]), steps[|steps| - 1]);
    }
  }

  /** A batch's non-negative shelf, its received quantity, and how far the shelf is ahead of the log. */
  ghost predicate Accounted(s: Tables, id: nat, overdrawn: nat)
    requires id < |s.batches|
  {
    && s.batches[id].available >= 0
    && s.batches[id].received == Sum(s.log, Acquired(id))
    && (s.batches[id].available == Sum(s.log, Entered(id)) - Sum(s.log, Removed(id)) <==> overdrawn == 0)
  }

  /** The shelf agrees with the movement log exactly when no supplier return overdrew the batch. */
  lemma ShelfAgreesWithLog(steps: seq<Step>, id: nat)
    ensures var s := Run(NOTHING, steps).stock;
      id < |s.batches| ==> Accounted(s, id, Overdrawn(NOTHING, steps, id))
  {
    LedgerOverRuns(steps);
    var s := Run(NOTHING, steps).stock;
    assert id < |s.batches| ==> BatchBooks(s, id);
  }

  /** The tolerance does let it happen: two thousandths are returned from a batch holding one. */
  lemma SupplierReturnCanOverdraw()
    ensures exists steps: seq<Step> :: Overdrawn(NOTHING, steps, 0) > 0
  {
    var item := GoodsReceipts.GrnItem(None, 0, 1, 1, 1, 0, 0, 0, Some("LOT"), None);
    var receipt := GoodsReceipts.Receipt(0, "K", "N", None, 0, GoodsReceipts.Approved, [item]);
    var doc := Returns.ReturnDoc(0, Returns.Approved, [Returns.ReturnItem(0, Some(0), 2, false, 0)]);
    var first, second := PostReceipt(receipt), PostSupplierReturn(doc);
    assert [first, second][..1] == [first] && [first][..0] == [];
    assert receipt.items[..0] == [] && doc.items[..0] == [];
    var s := GoodsReceipts.PostItems(EMPTY, receipt, receipt.items);
    assert GoodsReceipts.PostItems(EMPTY, receipt, []) == EMPTY;
    assert s == GoodsReceipts.PostItem(EMPTY, receipt, item);
    assert Run(NOTHING, [first]) == Apply(NOTHING, first);
    assert s.batches[0].available == 1;
    assert Returns.WithdrawItems(s, doc, []) == Ok(s);
    assert Returns.Excess(s, doc, doc.items, 0) == 1;
    assert StepExcess(Run(NOTHING, [first]), second, 0) == 1;
    assert Overdrawn(NOTHING, [first, second], 0) == Overdrawn(NOTHING, [first], 0) + 1;
  }

  // ---------------------------------------------------------------- trip quantities

  ghost predicate Untouched(trip: Trip)
  {
    && (forall i :: 0 <= i < |trip.items| ==> trip.items[i].loaded == 0)
    && (forall i :: 0 <= i < |trip.stopItems| ==> trip.stopItems[i].loaded == 0)
  }

  ghost predicate FullyLoaded(trip: Trip)
  {
    && (forall i :: 0 <= i < |trip.items| ==> trip.items[i].loaded == trip.items[i].planned)
    && (forall i :: 0 <= i < |trip.stopItems| ==> trip.stopItems[i].loaded == trip.stopItems[i].ordered)
  }

  ghost predicate IssuedNothing(s: Tables, id: nat)
  {
    forall variant: VariantId :: Issued(s, id, variant) == 0
  }

  ghost predicate IssuedPlan(s: Tables, id: nat, trip: Trip)
  {
    forall variant: VariantId :: Issued(s, id, variant) == Sum(trip.items, PlannedOf(variant))
  }

  /** The plan matches the orders, and no line is handled beyond what was ordered and the tolerance. */
  ghost predicate PlanBooks(trip: Trip)
  {
    && DistinctItems(trip.items)
    && (forall i :: 0 <= i < |trip.items| ==> trip.items[i].planned >= 0)
    && (forall i :: 0 <= i < |trip.stopItems| ==>
          trip.stopItems[i].ordered >= 0 && Handled(trip.stopItems[i]) <= trip.stopItems[i].ordered + 1)
    && (forall variant: VariantId :: Sum(trip.items, PlannedOf(variant)) == Sum(trip.stopItems, OrderedOf(variant)))
  }

  /** What a trip's status says about its loads and about the stock issued to it. */
  ghost predicate TripBooks(s: Tables, id: nat, trip: Trip)
  {
    && PlanBooks(trip)
    && match trip.status
       case Planned => Untouched(trip) && IssuedNothing(s, id)
       case Loaded => FullyLoaded(trip) && IssuedPlan(s, id, trip)
       case Dispatched => FullyLoaded(trip) && IssuedPlan(s, id, trip)
       case Completed =>
         (Untouched(trip) && IssuedNothing(s, id)) || (FullyLoaded(trip) && IssuedPlan(s, id, trip))
       case _ => false
  }

  /** A trip's books, and nothing issued to a trip that is not there. */
  ghost predicate TripAt(s: Tables, trips: seq<Trip>, id: nat)
  {
    if id < |trips| then TripBooks(s, id, trips[id]) else IssuedNothing(s, id)
  }

  ghost predicate OneTripPerRoute(trips: seq<Trip>)
  {
    forall i, j :: 0 <= i < j < |trips| ==> trips[i].cycle != trips[j].cycle || trips[i].route != trips[j].route
  }

  ghost predicate SoundTrips(o: Operations)
  {
    && Books(o.stock)
    && (forall id: nat :: TripAt(o.stock, o.trips, id))
    && OneTripPerRoute(o.trips)
  }

  function Rank(status: TripStatus): nat
  {
    match status
    case Planned => 0
    case Loaded => 1
    case Dispatched => 2
    case InTransit => 2
    case Completed => 3
    case Reconciled => 4
    case TripCancelled => 5
  }

  // ---------------------------------------------------------------- planning and loading

  /** A new trip plans exactly what its stops order. */
  lemma PlannedTripBooks(orders: seq<Order>, sequence: map<nat, int>, warehouse: WarehouseId, cycle: nat, route: nat)
    ensures var trip := PlannedTrip(orders, sequence, warehouse, cycle, route);
      PlanBooks(trip) && Untouched(trip)
  {
    var trip := PlannedTrip(orders, sequence, warehouse, cycle, route);
    var sorted := SortBy(orders, VisitedBefore(sequence));
    PlannedNonNegative(AllItems(orders));
    GroupDistinct(AllItems(orders), ItemVariant, 0, AddQuantity);
    forall i | 0 <= i < |trip.stopItems|
      ensures trip.stopItems[i].ordered >= 0 && trip.stopItems[i].loaded == 0 && Handled(trip.stopItems[i]) == 0
    {
      StopItemsFresh(sorted, i);
    }
    forall variant: VariantId ensures Sum(trip.items, PlannedOf(variant)) == Sum(trip.stopItems, OrderedOf(variant)) {
      PlannedIsAsked(orders, warehouse, variant);
      SortedStopsSum(orders, sequence, variant);
    }
  }

  lemma LoadedTripBooks(o: Operations, id: nat)
    requires SoundTrips(o) && id < |o.trips| && o.trips[id].status == Planned
    requires LoadItems(o.stock, id, o.trips[id].items).Ok?
    ensures var stock := LoadItems(o.stock, id, o.trips[id].items).value;
      && TripBooks(stock, id, LoadedTrip(o.trips[id]))
      && forall other: nat, variant: VariantId :: other != id ==> Issued(stock, other, variant) == Issued(o.stock, other, variant)
  {
    var trip, loaded := o.trips[id], LoadedTrip(o.trips[id]);
    var stock := LoadItems(o.stock, id, trip.items).value;
    assert TripAt(o.stock, o.trips, id);
    forall variant: VariantId
      ensures Issued(stock, id, variant) == Sum(loaded.items, PlannedOf(variant))
      ensures Sum(loaded.items, PlannedOf(variant)) == Sum(loaded.stopItems, OrderedOf(variant))
    {
      LoadItemsIssue(o.stock, id, trip.items, id, variant);
      SumOfLoaded(trip.items, loaded.items, variant);
      SumOfOrdered(trip.stopItems, loaded.stopItems, variant);
    }
    forall other: nat, variant: VariantId | other != id
      ensures Issued(stock, other, variant) == Issued(o.stock, other, variant)
    {
      LoadItemsIssue(o.stock, id, trip.items, other, variant);
    }
  }

  // ------------------------------------------------------------ every step keeps the trips

  ghost predicate Advances(before: seq<Trip>, after: seq<Trip>)
  {
    |before| <= |after| && forall id :: 0 <= id < |before| ==>
      Rank(before[id].status) <= Rank(after[id].status)
      && after[id].cycle == before[id].cycle && after[id].route == before[id].route
  }

  /** A stock step that leaves every trip's issues alone leaves every trip sound. */
  lemma StockStepKeepsTrips(o: Operations, stock: Tables)
    requires SoundTrips(o) && Books(stock) && LeavesTrips(o.stock, stock)
    ensures SoundTrips(o.(stock := stock))
  {
    forall id: nat ensures TripAt(stock, o.trips, id) {
      assert TripAt(o.stock, o.trips, id);
    }
  }

  /** Replacing one trip by another sound one. */
  lemma TripStepKeepsTrips(o: Operations, id: nat, trip: Trip)
    requires SoundTrips(o) && id < |o.trips| && TripBooks(o.stock, id, trip)
    requires trip.cycle == o.trips[id].cycle && trip.route == o.trips[id].route
    requires Rank(o.trips[id].status) <= Rank(trip.status)
    ensures SoundTrips(o.(trips := o.trips[id := trip])) && Advances(o.trips, o.trips[id := trip])
  {
    var trips := o.trips[id := trip];
    forall other: nat ensures TripAt(o.stock, trips, other) {
      assert TripAt(o.stock, o.trips, other);
    }
  }

  lemma AppendTripKeeps(o: Operations, trip: Trip)
    requires SoundTrips(o) && PlanBooks(trip) && Untouched(trip) && trip.status == Planned
    requires !TripExists(o.trips, trip.cycle, trip.route)
    ensures SoundTrips(o.(trips := o.trips + [trip]))
  {
    forall id: nat
      ensures TripAt(o.stock, o.trips + [trip], id)
      ensures id < |o.trips| ==> o.trips[id].cycle != trip.cycle || o.trips[id].route != trip.route
    {
      assert TripAt(o.stock, o.trips, id);
    }
  }

  lemma LoadTripKeeps(o: Operations, id: nat)
    requires SoundTrips(o) && Loading(o, id).Ok?
    ensures SoundTrips(Loading(o, id).value) && Advances(o.trips, Loading(o, id).value.trips)
    ensures Loading(o, id).value.trips[id].status == Loaded
  {
    var trip := o.trips[id];
    assert TripAt(o.stock, o.trips, id);
    if trip.status == Planned {
      var after := Loading(o, id).value;
      LoadItemsKeepsBooks(o.stock, id, trip.items);
      LoadedTripBooks(o, id);
      forall other: nat ensures TripAt(after.stock, after.trips, other) {
        assert TripAt(o.stock, o.trips, other);
      }
    }
  }

  lemma StartTripKeeps(o: Operations, id: nat, creditAllowed: bool)
    requires SoundTrips(o)
    ensures SoundTrips(Starting(o, id, creditAllowed).after) && Advances(o.trips, Starting(o, id, creditAllowed).after.trips)
  {
    if id < |o.trips| {
      assert TripAt(o.stock, o.trips, id);
      var loaded := if o.trips[id].status == Planned then Loading(o, id) else Ok(o);
      if loaded.Ok? {
        if o.trips[id].status == Planned { LoadTripKeeps(o, id); }
        ChallanKeeps(loaded.value, id);
      }
    }
  }

  /** Issuing the challan, and then dispatching a loaded trip. */
  lemma ChallanKeeps(o: Operations, id: nat)
    requires SoundTrips(o) && id < |o.trips|
    ensures var trips := o.trips[id := o.trips[id].(challan := true)];
      && SoundTrips(o.(trips := trips)) && Advances(o.trips, trips)
      && (o.trips[id].status in {Loaded, Dispatched} ==>
            var dispatched := trips[id := trips[id].(status := Dispatched)];
            SoundTrips(o.(trips := dispatched)) && Advances(o.trips, dispatched))
  {
    assert TripAt(o.stock, o.trips, id);
    TripStepKeepsTrips(o, id, o.trips[id].(challan := true));
    if o.trips[id].status in {Loaded, Dispatched} {
      TripStepKeepsTrips(o, id, o.trips[id].(challan := true, status := Dispatched));
      assert o.trips[id := o.trips[id].(challan := true)][id := o.trips[id].(challan := true, status := Dispatched)]
          == o.trips[id := o.trips[id].(challan := true, status := Dispatched)];
    }
  }

  lemma UpdateStopKeeps(o: Operations, id: nat, stop: nat, update: StopUpdate, zeroIsAbsent: bool)
    requires SoundTrips(o) && Updating(o, id, stop, update, zeroIsAbsent).Ok?
    ensures var after := Updating(o, id, stop, update, zeroIsAbsent).value;
      SoundTrips(after) && Advances(o.trips, after.trips)
  {
    var trip := o.trips[id];
    assert TripAt(o.stock, o.trips, id);
    UpdateItemsKeeps(trip.stopItems, stop, update, zeroIsAbsent);
    var after := Updating(o, id, stop, update, zeroIsAbsent).value;
    forall variant: VariantId
      ensures Sum(after.trips[id].stopItems, OrderedOf(variant)) == Sum(trip.stopItems, OrderedOf(variant))
    {
      SumOfOrdered(trip.stopItems, after.trips[id].stopItems, variant);
    }
    TripStepKeepsTrips(o, id, after.trips[id]);
  }

  /** The other four writers of the batch tables issue nothing to a trip. */
  lemma WriterKeepsTrips(o: Operations, step: Step)
    requires SoundTrips(o) && !(step.PlanTrip? || step.LoadTrip? || step.StartTrip? || step.CompleteTrip? || step.UpdateStop?)
    ensures SoundTrips(Apply(o, step)) && Apply(o, step).trips == o.trips
  {
    match step {
      case PostReceipt(receipt) =>
        GoodsReceipts.PostItemsKeepsBooks(o.stock, receipt, receipt.items);
      case PostAdjustment(adj) =>
        if Inventory.ApplyItems(o.stock, adj, adj.items).Ok? {
          Inventory.ApplyItemsKeepsBooks(o.stock, adj, adj.items);
        }
      case ApproveSalesReturn(doc) =>
        Returns.RestockItemsKeepsBooks(o.stock, doc, doc.items);
      case PostSupplierReturn(doc) =>
        if Returns.WithdrawItems(o.stock, doc, doc.items).Ok? {
          Returns.WithdrawItemsExcess(o.stock, doc, doc.items);
        }
    }
    StockStepKeepsTrips(o, Apply(o, step).stock);
  }

  lemma CompleteTripKeeps(o: Operations, id: nat)
    requires SoundTrips(o) && Completing(o, id).Ok?
    ensures SoundTrips(Completing(o, id).value) && Advances(o.trips, Completing(o, id).value.trips)
  {
    assert TripAt(o.stock, o.trips, id);
    TripStepKeepsTrips(o, id, o.trips[id].(status := Completed));
  }

  lemma StepKeepsTrips(o: Operations, step: Step)
    requires SoundTrips(o)
    ensures SoundTrips(Apply(o, step)) && Advances(o.trips, Apply(o, step).trips)
  {
    match step
    case PlanTrip(orders, sequence, warehouse, cycle, route) =>
      if Planning(o.trips, orders, sequence, warehouse, cycle, route).Ok? {
        PlannedTripBooks(Eligible(orders, cycle, route), sequence, warehouse.value, cycle, route);
        AppendTripKeeps(o, PlannedTrip(Eligible(orders, cycle, route), sequence, warehouse.value, cycle, route));
      }
    case LoadTrip(id) => if Loading(o, id).Ok? { LoadTripKeeps(o, id); }
    case StartTrip(id, creditAllowed) => StartTripKeeps(o, id, creditAllowed);
    case CompleteTrip(id) => if Completing(o, id).Ok? { CompleteTripKeeps(o, id); }
    case UpdateStop(id, stop, update, zeroIsAbsent) =>
      if Updating(o, id, stop, update, zeroIsAbsent).Ok? { UpdateStopKeeps(o, id, stop, update, zeroIsAbsent); }
    case _ => WriterKeepsTrips(o, step);
  }

  /** Over every run of planning, loading, starting, completing and stop updates, with any repeats and any
      stock steps in between: stock is issued to a trip exactly once, plan, load and issue agree, and no
      line is handled beyond what was ordered and the tolerance. */
  lemma {:induction false} TripsOverRuns(steps: seq<Step>)
    ensures SoundTrips(Run(NOTHING, steps))
  {
    if steps != [] {
      TripsOverRuns(steps[..|steps| - 1]);
      StepKeepsTrips(Run(NOTHING, steps[..|steps| - 1]), steps[|steps| - 1]);
    }
  }

  /** No later step takes a trip's status back, or loses the trip. */
  lemma {:induction false} TripStatusNeverFalls(steps: seq<Step>, n: nat)
    requires n <= |steps|
    ensures Advances(Run(NOTHING, steps[..n]).trips, Run(NOTHING, steps).trips)
    decreases |steps|
  {
    if n == |steps| {
      assert steps[..n] == steps;
    } else {
      var init := steps[..|steps| - 1];
      TripStatusNeverFalls(init, n);
      assert init[..n] == steps[..n];
      TripsOverRuns(init);
      StepKeepsTrips(Run(NOTHING, init), steps[|steps| - 1]);
    }
  }

  /** End to end, per variant: what is planned is what the stops ordered; once loaded, both are what the
      stops were loaded with and what the stock issued. */
  lemma TripConservation(steps: seq<Step>, id: nat, variant: VariantId)
    ensures var o := Run(NOTHING, steps);
      id < |o.trips| ==> Conserves(o.stock, id, o.trips[id], variant)
  {
    TripsOverRuns(steps);
    var o := Run(NOTHING, steps);
    if id < |o.trips| {
      assert TripAt(o.stock, o.trips, id);
      TripBooksConserve(o.stock, id, o.trips[id], variant);
    }
  }

  /** A trip's planned, ordered, loaded and issued quantities of a variant. */
  ghost predicate Conserves(s: Tables, id: nat, trip: Trip, variant: VariantId)
  {
    var planned, issued := Sum(trip.items, PlannedOf(variant)), Issued(s, id, variant);
    && planned == Sum(trip.stopItems, OrderedOf(variant))
    && (issued == 0 || issued == planned)
    && issued == Sum(trip.stopItems, LoadedOf(variant))
    && (trip.status == Planned ==> issued == 0)
    && (trip.status in {Loaded, Dispatched} ==> issued == planned)
  }

  lemma TripBooksConserve(s: Tables, id: nat, trip: Trip, variant: VariantId)
    requires TripBooks(s, id, trip)
    ensures Conserves(s, id, trip, variant)
  {
    if FullyLoaded(trip) {
      SumAgree(trip.stopItems, LoadedOf(variant), OrderedOf(variant));
    }
    if Untouched(trip) {
      SumZero(trip.stopItems, LoadedOf(variant));
    }
  }

  /** At every stop, whatever updates came in any order, no line is handled beyond the ordered quantity
      and the tolerance. */
  lemma HandledWithinOrdered(steps: seq<Step>, id: nat, i: nat)
    ensures var trips := Run(NOTHING, steps).trips;
      id < |trips| && i < |trips[id].stopItems| ==>
        var item := trips[id].stopItems[i];
        item.delivered + item.returned + item.damaged + item.refused <= item.ordered + 1
  {
    TripsOverRuns(steps);
    var o := Run(NOTHING, steps);
    assert TripAt(o.stock, o.trips, id);
  }

  /** Completing does not ask for loading: a completed trip was issued its plan exactly when it had been
      loaded or planned nothing. */
  lemma CompletionIssue(steps: seq<Step>, id: nat)
    ensures var o := Run(NOTHING, steps);
      Completing(o, id).Ok? && o.trips[id].status != Completed ==>
        (IssuedPlan(o.stock, id, o.trips[id]) <==>
           o.trips[id].status != Planned || forall v: VariantId :: Sum(o.trips[id].items, PlannedOf(v)) == 0)
  {
    TripsOverRuns(steps);
    var o := Run(NOTHING, steps);
    if id < |o.trips| {
      assert TripAt(o.stock, o.trips, id);
    }
  }

  /** It does happen: the one stop of a trip is refused, the trip is completed, and nothing was issued of
      what it planned. */
  lemma CompletedWithoutIssue(item: OrderItem)
    requires Quantity(item) > 0
    ensures exists steps: seq<Step> :: UnissuedCompletion(Run(NOTHING, steps), item.variant)
  {
    var order := Order(0, 0, Some(0), 0, 0, OrderStatus.Approved, [item]);
    var plan := PlanTrip([order], map[], Some(0), 0, 0);
    var refusal := UpdateStop(0, 0, StopUpdate(Refused, map[]), true);
    RunThree(NOTHING, plan, refusal, CompleteTrip(0));
    OneOrderTrip(order, item);
    RefusedThenCompleted(Apply(NOTHING, plan), ToStopItem(0, item), true);
    assert Issued(EMPTY, 0, item.variant) == 0;
    assert UnissuedCompletion(Run(NOTHING, [plan, refusal, CompleteTrip(0)]), item.variant);
  }

  lemma OneOrderTrip(order: Order, item: OrderItem)
    requires order.cycle == 0 && order.route == Some(0) && order.status == OrderStatus.Approved && order.items == [item]
    ensures var o := Apply(NOTHING, PlanTrip([order], map[], Some(0), 0, 0));
      && o.stock == EMPTY && |o.trips| == 1
      && o.trips[0].status == Planned && o.trips[0].stops == [Pending]
      && o.trips[0].stopItems == [ToStopItem(0, item)]
      && Sum(o.trips[0].items, PlannedOf(item.variant)) == Quantity(item)
  {
    OneEligible(order);
    var less := VisitedBefore(map[]);
    assert [order][..0] == [] && SortBy([], less) == [] && SortBy([order], less) == [order];
    assert StopItems([order]) == StopItems([]) + OrderStopItems(0, [item]);
    PlannedIsAsked([order], 0, item.variant);
    OneAsked(order, item);
  }

  lemma OneEligible(order: Order)
    requires order.cycle == 0 && order.route == Some(0) && order.status == OrderStatus.Approved
    ensures Eligible([order], 0, 0) == [order]
  {
    assert [order][1..] == [] && Eligible([], 0, 0) == [] && [order] + [] == [order];
  }

  lemma OneAsked(order: Order, item: OrderItem)
    requires order.items == [item]
    ensures Sum([order], PerOrder(Asked(item.variant))) == Quantity(item)
  {
    assert Sum([order], PerOrder(Asked(item.variant))) == Sum([item], Asked(item.variant)) + Sum([order][1..], PerOrder(Asked(item.variant)));
    assert Sum([item], Asked(item.variant)) == Quantity(item) + Sum([item][1..], Asked(item.variant));
  }

  lemma RefusedThenCompleted(o: Operations, line: StopItem, zeroIsAbsent: bool)
    requires |o.trips| == 1 && o.trips[0].status == Planned && o.trips[0].stops == [Pending]
    requires o.trips[0].stopItems == [line] && line.stop == 0
    ensures var after := Apply(Apply(o, UpdateStop(0, 0, StopUpdate(Refused, map[]), zeroIsAbsent)), CompleteTrip(0));
      && after.stock == o.stock && |after.trips| == 1
      && after.trips[0].status == Completed && after.trips[0].items == o.trips[0].items
  {
    var update := StopUpdate(Refused, map[]);
    assert [line][0].stop == 0;
    assert Requantified(line, update, zeroIsAbsent).Ok?;
    assert [line][1..] == [] && UpdateItems([], 0, update, zeroIsAbsent) == Ok([]);
    assert UpdateItems([line], 0, update, zeroIsAbsent).Ok?;
    assert Apply(o, UpdateStop(0, 0, update, zeroIsAbsent)).trips[0].stops == [Refused];
  }

  /** The first trip is completed, planned some of a variant, and was issued none of it. */
  predicate UnissuedCompletion(o: Operations, variant: VariantId)
  {
    && |o.trips| > 0 && o.trips[0].status == Completed
    && Sum(o.trips[0].items, PlannedOf(variant)) > 0
    && Issued(o.stock, 0, variant) == 0
  }

  lemma RunThree(o: Operations, a: Step, b: Step, c: Step)
    ensures Run(o, [a, b, c]) == Apply(Apply(Apply(o, a), b), c)
  {
    assert [a, b, c][..2] == [a, b] && [a, b][..1] == [a] && [a][..0] == [];
    assert Run(o, [a]) == Apply(o, a) && Run(o, [a, b]) == Apply(Run(o, [a]), b);
  }
}
