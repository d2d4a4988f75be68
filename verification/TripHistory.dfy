/** How trips and their stops end, over whole runs. */
module TripHistory {
  import opened Wrappers
  import opened Sums
  import opened Sorting
  import opened Stock
  import opened Fefo
  import opened Orders
  import opened Dispatch
  import opened Delivery
  import opened OperationsHistory

  /** A sound trip with items can be loaded exactly while it is loaded, or planned with every plan in stock. */
  lemma LoadingExactly(o: Operations, id: nat)
    requires SoundTrips(o)
    ensures Loading(o, id).Ok?
       <==> && id < |o.trips| && o.trips[id].items != []
            && (o.trips[id].status == Loaded
                || (o.trips[id].status == Planned
                    && forall i :: 0 <= i < |o.trips[id].items| ==>
                         o.trips[id].items[i].planned <= OnHand(o.stock, o.trips[id].items[i].warehouse, o.trips[id].items[i].variant)))
  {
    assert TripAt(o.stock, o.trips, id);
    if id < |o.trips| { LoadsExactly(o.stock, id, o.trips[id].items); }
  }

  /** What a line says once its stop is refused or failed. */
  predicate LineRecords(line: StopItem, status: StopStatus)
  {
    && (status == Refused ==> line.delivered == line.returned == line.damaged == 0)
    && (status == Failed ==> line.delivered == line.damaged == line.refused == 0)
  }

  ghost predicate Closed(trip: Trip)
  {
    && (trip.status == Completed ==> Pending !in trip.stops)
    && forall i :: 0 <= i < |trip.stopItems| ==>
         trip.stopItems[i].stop < |trip.stops| && LineRecords(trip.stopItems[i], trip.stops[trip.stopItems[i].stop])
  }

  ghost predicate AllClosed(o: Operations)
  {
    forall id :: 0 <= id < |o.trips| ==> Closed(o.trips[id])
  }

  lemma PlannedClosed(orders: seq<Order>, sequence: map<nat, int>, warehouse: WarehouseId, cycle: nat, route: nat)
    ensures Closed(PlannedTrip(orders, sequence, warehouse, cycle, route))
  {
    var trip := PlannedTrip(orders, sequence, warehouse, cycle, route);
    SortByLength(orders, VisitedBefore(sequence));
    forall i | 0 <= i < |trip.stopItems| ensures trip.stopItems[i].stop < |trip.stops| {
      StopLineOfOrder(SortBy(orders, VisitedBefore(sequence)), i);
    }
  }

  lemma LoadingClosed(o: Operations, id: nat)
    requires AllClosed(o)
    ensures Loading(o, id).Ok? ==> AllClosed(Loading(o, id).value) && |Loading(o, id).value.trips| == |o.trips|
  {
    if Loading(o, id).Ok? {
      var after := Loading(o, id).value;
      forall other | 0 <= other < |after.trips| ensures Closed(after.trips[other]) { assert Closed(o.trips[other]); }
    }
  }

  lemma StartClosed(o: Operations, id: nat, creditAllowed: bool)
    requires AllClosed(o)
    ensures AllClosed(Starting(o, id, creditAllowed).after)
  {
    LoadingClosed(o, id);
    if id < |o.trips| { assert Closed(o.trips[id]); }
  }

  lemma UpdateClosed(o: Operations, id: nat, stop: nat, update: StopUpdate, zeroIsAbsent: bool)
    requires AllClosed(o) && Updating(o, id, stop, update, zeroIsAbsent).Ok?
    ensures AllClosed(Updating(o, id, stop, update, zeroIsAbsent).value)
  {
    var after := Updating(o, id, stop, update, zeroIsAbsent).value;
    var lines := o.trips[id].stopItems;
    assert Closed(o.trips[id]);
    UpdateItemsKeeps(lines, stop, update, zeroIsAbsent);
    forall i | 0 <= i < |lines| ensures LineRecords(after.trips[id].stopItems[i], after.trips[id].stops[lines[i].stop]) {
      UpdateItemsAt(lines, stop, update, zeroIsAbsent, i);
      if lines[i].stop == stop { UpdatedQuantities(lines[i], update, zeroIsAbsent); }
    }
  }

  lemma StepClosed(o: Operations, step: Step)
    requires AllClosed(o)
    ensures AllClosed(Apply(o, step))
  {
    match step
    case PlanTrip(orders, sequence, warehouse, cycle, route) =>
      if warehouse.Some? { PlannedClosed(Eligible(orders, cycle, route), sequence, warehouse.value, cycle, route); }
    case LoadTrip(id) => LoadingClosed(o, id);
    case StartTrip(id, creditAllowed) => StartClosed(o, id, creditAllowed);
    case CompleteTrip(id) => if id < |o.trips| { assert Closed(o.trips[id]); }
    case UpdateStop(id, stop, update, zeroIsAbsent) =>
      if Updating(o, id, stop, update, zeroIsAbsent).Ok? { UpdateClosed(o, id, stop, update, zeroIsAbsent); }
    case _ =>
  }

  /** Over every run a completed trip has no stop pending, no line of a refused stop counts as delivered,
      returned or damaged, and none of a failed stop as delivered, damaged or refused. */
  lemma {:induction false} StopsOverRuns(steps: seq<Step>)
    ensures AllClosed(Run(NOTHING, steps))
  {
    if steps != [] {
      StopsOverRuns(steps[..|steps| - 1]);
      StepClosed(Run(NOTHING, steps[..|steps| - 1]), steps[|steps| - 1]);
    }
  }

  /** A completed trip keeps its stops and lines; at most its challan is still issued. */
  lemma CompletedStays(o: Operations, step: Step, id: nat)
    requires id < |o.trips| && o.trips[id].status == Completed
    ensures var after := Apply(o, step).trips;
      id < |after| && after[id].(challan := true) == o.trips[id].(challan := true)
  {
  }

  /** The same between any two moments of a run. */
  lemma {:induction false} CompletedIsFinal(steps: seq<Step>, n: nat, id: nat)
    requires n <= |steps|
    ensures var before, after := Run(NOTHING, steps[..n]).trips, Run(NOTHING, steps).trips;
      id < |before| && before[id].status == Completed ==>
        id < |after| && after[id].(challan := true) == before[id].(challan := true)
    decreases |steps|
  {
    if n == |steps| {
      assert steps[..n] == steps;
    } else {
      var init := steps[..|steps| - 1];
      CompletedIsFinal(init, n, id);
      assert init[..n] == steps[..n];
      var now := Run(NOTHING, init);
      if id < |now.trips| && now.trips[id].status == Completed { CompletedStays(now, steps[|steps| - 1], id); }
    }
  }
}
