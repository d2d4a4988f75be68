/** Each single quantity of a stop line over whole runs. The requests a driver sends may carry negative
    quantities; only their sum is checked. */
module DeliveryHistory {
  import opened Wrappers
  import opened Sums
  import Sorting
  import opened Stock
  import opened Orders
  import opened Dispatch
  import opened Delivery
  import opened OperationsHistory

  /** Each handled quantity lies between nothing and what was ordered, with its tolerance. */
  predicate InRange(item: StopItem)
  {
    && 0 <= item.delivered <= item.ordered + 1
    && 0 <= item.returned <= item.ordered + 1
    && 0 <= item.damaged <= item.ordered + 1
    && 0 <= item.refused <= item.ordered + 1
  }

  /** Where an update uses what is reported for a line, nothing reported is negative. */
  predicate Sane(item: StopItem, update: StopUpdate)
  {
    update.status in {Delivered, Partial} && item.variant in update.items ==>
      var reported := update.items[item.variant];
      reported.delivered >= 0 && Optional(reported.returned, 0) >= 0 && Optional(reported.damaged, 0) >= 0
  }

  /** An accepted update leaves a line in range exactly when its report is sane. */
  lemma UpdateItemRange(item: StopItem, update: StopUpdate, zeroIsAbsent: bool)
    requires InRange(item) && 0 <= LoadedQty(item, zeroIsAbsent) <= item.ordered
    requires Requantified(item, update, zeroIsAbsent).Ok?
    ensures InRange(UpdateItem(item, update, zeroIsAbsent).value) <==> Sane(item, update)
  {
    var q := Requantified(item, update, zeroIsAbsent).value;
    assert InRange(q) <==> Sane(item, update);
  }

  predicate TripInRange(trip: Trip)
  {
    forall i :: 0 <= i < |trip.stopItems| ==> InRange(trip.stopItems[i])
  }

  predicate AllInRange(o: Operations)
  {
    forall id :: 0 <= id < |o.trips| ==> TripInRange(o.trips[id])
  }

  /** If the step is an accepted stop update, its reports are sane for every line of the stop. */
  predicate StepSane(o: Operations, step: Step)
  {
    step.UpdateStop? && Updating(o, step.trip, step.stop, step.update, step.zeroIsAbsent).Ok? ==>
      forall i :: 0 <= i < |o.trips[step.trip].stopItems| && o.trips[step.trip].stopItems[i].stop == step.stop ==>
        Sane(o.trips[step.trip].stopItems[i], step.update)
  }

  lemma LoadedWithinOrdered(o: Operations, id: nat, i: nat, zeroIsAbsent: bool)
    requires SoundTrips(o) && id < |o.trips| && i < |o.trips[id].stopItems|
    ensures 0 <= LoadedQty(o.trips[id].stopItems[i], zeroIsAbsent) <= o.trips[id].stopItems[i].ordered
  {
    assert TripAt(o.stock, o.trips, id);
  }

  lemma UpdateRange(o: Operations, id: nat, stop: nat, update: StopUpdate, zeroIsAbsent: bool)
    requires SoundTrips(o) && AllInRange(o) && Updating(o, id, stop, update, zeroIsAbsent).Ok?
    ensures AllInRange(Updating(o, id, stop, update, zeroIsAbsent).value)
       <==> StepSane(o, UpdateStop(id, stop, update, zeroIsAbsent))
  {
    var lines, after := o.trips[id].stopItems, Updating(o, id, stop, update, zeroIsAbsent).value;
    assert TripInRange(o.trips[id]);
    UpdateItemsKeeps(lines, stop, update, zeroIsAbsent);
    forall i | 0 <= i < |lines|
      ensures InRange(after.trips[id].stopItems[i]) <==> (lines[i].stop == stop ==> Sane(lines[i], update))
    {
      UpdateItemsAt(lines, stop, update, zeroIsAbsent, i);
      LoadedWithinOrdered(o, id, i, zeroIsAbsent);
      if lines[i].stop == stop { UpdateItemRange(lines[i], update, zeroIsAbsent); }
    }
    LinesInRange(o, after, id, stop, update);
  }

  lemma LinesInRange(o: Operations, after: Operations, id: nat, stop: nat, update: StopUpdate)
    requires id < |o.trips| && AllInRange(o) && |after.trips| == |o.trips|
    requires forall other :: 0 <= other < |o.trips| && other != id ==> after.trips[other] == o.trips[other]
    requires |after.trips[id].stopItems| == |o.trips[id].stopItems|
    requires forall i :: 0 <= i < |o.trips[id].stopItems| ==>
      (InRange(after.trips[id].stopItems[i]) <==> (o.trips[id].stopItems[i].stop == stop ==> Sane(o.trips[id].stopItems[i], update)))
    ensures AllInRange(after)
       <==> forall i :: 0 <= i < |o.trips[id].stopItems| && o.trips[id].stopItems[i].stop == stop ==> Sane(o.trips[id].stopItems[i], update)
  {
    forall other | 0 <= other < |o.trips| && other != id ensures TripInRange(after.trips[other]) {
      assert TripInRange(o.trips[other]);
    }
    assert AllInRange(after) <==> TripInRange(after.trips[id]);
    if TripInRange(after.trips[id]) {
      forall i | 0 <= i < |o.trips[id].stopItems| && o.trips[id].stopItems[i].stop == stop
        ensures Sane(o.trips[id].stopItems[i], update)
      {
        assert InRange(after.trips[id].stopItems[i]);
      }
    }
  }

  /** Loading changes no handled quantity. */
  lemma LoadingRange(o: Operations, id: nat)
    requires AllInRange(o)
    ensures Loading(o, id).Ok? ==> AllInRange(Loading(o, id).value)
  {
    if Loading(o, id).Ok? {
      var after := Loading(o, id).value;
      forall other | 0 <= other < |after.trips| ensures TripInRange(after.trips[other]) {
        assert TripInRange(o.trips[other]);
        LoadedRange(o.trips[other]);
      }
    }
  }

  lemma LoadedRange(trip: Trip)
    requires TripInRange(trip)
    ensures TripInRange(LoadedTrip(trip))
  {
    forall i | 0 <= i < |trip.stopItems| ensures InRange(LoadedTrip(trip).stopItems[i]) {
      assert InRange(trip.stopItems[i]);
    }
  }

  lemma SetTripRange(o: Operations, id: nat, trip: Trip)
    requires AllInRange(o) && id < |o.trips| && trip.stopItems == o.trips[id].stopItems
    ensures AllInRange(o.(trips := o.trips[id := trip]))
  {
    assert TripInRange(o.trips[id]);
  }

  lemma StartRange(o: Operations, id: nat, creditAllowed: bool)
    requires AllInRange(o)
    ensures AllInRange(Starting(o, id, creditAllowed).after)
  {
    if id < |o.trips| {
      LoadingRange(o, id);
      var loaded := if o.trips[id].status == Planned then Loading(o, id) else Ok(o);
      if loaded.Ok? {
        var now := loaded.value;
        var trip := now.trips[id].(challan := true);
        SetTripRange(now, id, trip);
        SetTripRange(now.(trips := now.trips[id := trip]), id, trip.(status := Dispatched));
      }
    }
  }

  lemma PlanRange(o: Operations, orders: seq<Order>, sequence: map<nat, int>, warehouse: WarehouseId, cycle: nat, route: nat)
    requires AllInRange(o)
    ensures AllInRange(o.(trips := o.trips + [PlannedTrip(orders, sequence, warehouse, cycle, route)]))
  {
    var trip := PlannedTrip(orders, sequence, warehouse, cycle, route);
    forall i | 0 <= i < |trip.stopItems| ensures InRange(trip.stopItems[i]) {
      StopItemsFresh(Sorting.SortBy(orders, VisitedBefore(sequence)), i);
    }
    assert TripInRange(trip);
  }

  lemma StepRange(o: Operations, step: Step)
    requires SoundTrips(o) && AllInRange(o)
    ensures AllInRange(Apply(o, step)) <==> StepSane(o, step)
  {
    match step
    case PlanTrip(orders, sequence, warehouse, cycle, route) =>
      if warehouse.Some? { PlanRange(o, Eligible(orders, cycle, route), sequence, warehouse.value, cycle, route); }
    case LoadTrip(id) => LoadingRange(o, id);
    case StartTrip(id, creditAllowed) => StartRange(o, id, creditAllowed);
    case CompleteTrip(id) => if id < |o.trips| { SetTripRange(o, id, o.trips[id].(status := Completed)); }
    case UpdateStop(id, stop, update, zeroIsAbsent) =>
      if Updating(o, id, stop, update, zeroIsAbsent).Ok? { UpdateRange(o, id, stop, update, zeroIsAbsent); }
    case _ =>
  }

  /** Every line was in range at every moment of the run. */
  predicate AlwaysInRange(steps: seq<Step>)
  {
    AllInRange(Run(NOTHING, steps)) && (steps == [] || AlwaysInRange(steps[..|steps| - 1]))
  }

  predicate AlwaysSane(steps: seq<Step>)
  {
    steps == [] || (AlwaysSane(steps[..|steps| - 1]) && StepSane(Run(NOTHING, steps[..|steps| - 1]), steps[|steps| - 1]))
  }

  /** Over any run, every single quantity stays between zero and the ordered quantity with its tolerance, at
      every moment, exactly when every accepted update reports no negative quantity for a line of its stop. */
  lemma {:induction false} SingleQuantitiesExactly(steps: seq<Step>)
    ensures AlwaysInRange(steps) <==> AlwaysSane(steps)
  {
    if steps != [] {
      var init := steps[..|steps| - 1];
      SingleQuantitiesExactly(init);
      if AlwaysInRange(init) {
        TripsOverRuns(init);
        InRangeNow(init);
        StepRange(Run(NOTHING, init), steps[|steps| - 1]);
      }
    }
  }

  lemma InRangeNow(steps: seq<Step>)
    requires AlwaysInRange(steps)
    ensures AllInRange(Run(NOTHING, steps))
  {
  }

  /** As it happens: five thousandths too many delivered, five of them returned in the negative. */
  lemma NegativeReturnAccepted(item: StopItem, zeroIsAbsent: bool)
    requires item.loaded == item.ordered
    ensures var update := StopUpdate(Delivered, map[item.variant := ItemUpdate(item.ordered + 5, Some(-5), None)]);
      var r := UpdateItem(item, update, zeroIsAbsent);
      r.Ok? && r.value.delivered == item.ordered + 5
  {
    var update := StopUpdate(Delivered, map[item.variant := ItemUpdate(item.ordered + 5, Some(-5), None)]);
    assert Requantified(item, update, zeroIsAbsent).Ok?;
  }
}
