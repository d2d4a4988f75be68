/** Dispatch trips: planning from orders, loading stock, starting and completing (dispatch.service.ts). */
module Dispatch {
  import opened Wrappers
  import opened Sums
  import opened Sorting
  import opened Tally
  import opened Greedy
  import opened Stock
  import opened Fefo
  import opened Orders
  import opened Database

  datatype TripStatus = Planned | Loaded | Dispatched | InTransit | Completed | Reconciled | TripCancelled

  datatype TripItem = TripItem(variant: VariantId, warehouse: WarehouseId, planned: int, loaded: int)

  datatype StopStatus = Pending | Delivered | Partial | Refused | Failed

  datatype StopItem = StopItem(
    stop: nat, variant: VariantId, ordered: int, loaded: int,
    delivered: int, returned: int, damaged: int, refused: int,
    unitPrice: real, tax: real, lineTotal: real)

  datatype Trip = Trip(
    cycle: nat, route: nat, status: TripStatus, challan: bool,
    items: seq<TripItem>, stops: seq<StopStatus>, stopItems: seq<StopItem>)

  // ---------------------------------------------------------------- planning

  function AddQuantity(total: int, item: OrderItem): int { total + Quantity(item) }

  function ToTripItems(rows: seq<Row<VariantId, int>>, warehouse: WarehouseId): seq<TripItem>
  {
    seq(|rows|, i requires 0 <= i < |rows| => TripItem(rows[i].key, warehouse, rows[i].value, 0))
  }

  /** Approved or packed orders of a cycle and route, in table (order-date) order. */
  function Eligible(orders: seq<Order>, cycle: nat, route: nat): seq<Order>
  {
    if orders == [] then []
    else
      var o := orders[0];
      (if o.cycle == cycle && o.route == Some(route) && o.status in {Approved, Packed} then [o] else [])
      + Eligible(orders[1..], cycle, route)
  }

  const LAST_STOP := 9007199254740991

  /** The order stops are visited in: by the route's sequence, then by order date. */
  function VisitedBefore(sequence: map<nat, int>): (Order, Order) -> bool
  {
    (a: Order, b: Order) =>
      var x := if a.retailer in sequence then sequence[a.retailer] else LAST_STOP;
      var y := if b.retailer in sequence then sequence[b.retailer] else LAST_STOP;
      if x != y then x < y else a.orderDate < b.orderDate
  }

  function ToStopItem(stop: nat, item: OrderItem): StopItem
  {
    StopItem(stop, item.variant, Quantity(item), 0, 0, 0, 0, 0, item.unitPrice, item.tax, item.lineTotal)
  }

  function OrderStopItems(stop: nat, items: seq<OrderItem>): seq<StopItem>
  {
    seq(|items|, i requires 0 <= i < |items| => ToStopItem(stop, items[i]))
  }

  /** One stop per order, in visiting order, with one line per order item. */
  function StopItems(orders: seq<Order>): seq<StopItem>
  {
    if orders == [] then []
    else StopItems(orders[..|orders| - 1]) + OrderStopItems(|orders| - 1, orders[|orders| - 1].items)
  }

  function NewStops(n: nat): seq<StopStatus>
  {
    seq(n, _ => Pending)
  }

  function PlannedTrip(orders: seq<Order>, sequence: map<nat, int>, warehouse: WarehouseId, cycle: nat, route: nat): Trip
  {
    Trip(cycle, route, Planned, false,
         ToTripItems(Group(AllItems(orders), ItemVariant, 0, AddQuantity), warehouse),
         NewStops(|orders|),
         StopItems(SortBy(orders, VisitedBefore(sequence))))
  }

  predicate TripExists(trips: seq<Trip>, cycle: nat, route: nat)
  {
    exists i :: 0 <= i < |trips| && trips[i].cycle == cycle && trips[i].route == route && trips[i].status != TripCancelled
  }

  function Planning(trips: seq<Trip>, orders: seq<Order>, sequence: map<nat, int>, warehouse: Option<WarehouseId>,
      cycle: nat, route: nat): Result<Trip>
  {
    var eligible := Eligible(orders, cycle, route);
    if TripExists(trips, cycle, route) then Err(Conflict)
    else if eligible == [] then Err(BadRequest)
    else if warehouse.None? then Err(NotFound)
    else Ok(PlannedTrip(eligible, sequence, warehouse.value, cycle, route))
  }

  // ---------------------------------------------------------------- loading

  function LoadCause(trip: nat, item: TripItem): Cause
  {
    Cause(DispatchOut, trip, item.warehouse, item.variant)
  }

  function LoadItem(s: Tables, trip: nat, item: TripItem): Result<Tables>
  {
    if item.planned <= 0 then Ok(s)
    else ConsumeFefo(s, item.warehouse, item.variant, item.planned, LoadCause(trip, item))
  }

  function LoadItems(s: Tables, trip: nat, items: seq<TripItem>): Result<Tables>
    decreases |items|
  {
    if items == [] then Ok(s)
    else
      var r := LoadItem(s, trip, items[0]);
      if r.Err? then r else LoadItems(r.value, trip, items[1..])
  }

  function LoadedTripItems(items: seq<TripItem>): seq<TripItem>
  {
    seq(|items|, i requires 0 <= i < |items| => LoadedTripItem(items[i]))
  }

  function LoadedTripItem(item: TripItem): TripItem
  {
    if item.planned <= 0 then item else item.(loaded := item.planned)
  }

  function LoadedTrip(trip: Trip): Trip
  {
    trip.(status := Loaded,
          items := LoadedTripItems(trip.items),
          stopItems := seq(|trip.stopItems|, i requires 0 <= i < |trip.stopItems| =>
                             trip.stopItems[i].(loaded := trip.stopItems[i].ordered)))
  }

  predicate CurrentlyLoaded(trip: Trip)
  {
    forall i :: 0 <= i < |trip.items| ==> trip.items[i].loaded >= trip.items[i].planned
  }

  /** The trips and the stock they are loaded from. */
  datatype Operations = Operations(stock: Tables, trips: seq<Trip>)

  function Loading(o: Operations, id: nat): Result<Operations>
  {
    if id >= |o.trips| then Err(NotFound)
    else
      var trip := o.trips[id];
      if trip.status in {Dispatched, InTransit, Completed, Reconciled, TripCancelled} then Err(Conflict)
      else if trip.items == [] then Err(BadRequest)
      else if trip.status == Loaded && CurrentlyLoaded(trip) then Ok(o)
      else
        var stock := LoadItems(o.stock, id, trip.items);
        if stock.Err? then Err(stock.error)
        else Ok(Operations(stock.value, o.trips[id := LoadedTrip(trip)]))
  }

  /** A call that may have committed earlier transactions before it throws. */
  datatype Outcome = Outcome(after: Operations, error: Option<Failure>)

  /** Loads a planned trip, issues its challan, then dispatches it if every stop's credit is allowed. */
  function Starting(o: Operations, id: nat, creditAllowed: bool): Outcome
  {
    if id >= |o.trips| then Outcome(o, Some(NotFound))
    else if o.trips[id].status == TripCancelled then Outcome(o, Some(Conflict))
    else
      var loaded := if o.trips[id].status == Planned then Loading(o, id) else Ok(o);
      if loaded.Err? then Outcome(o, Some(loaded.error))
      else
        var challaned := loaded.value.(trips := loaded.value.trips[id := loaded.value.trips[id].(challan := true)]);
        if challaned.trips[id].status !in {Loaded, Dispatched, InTransit} then Outcome(challaned, Some(BadRequest))
        else if !creditAllowed then Outcome(challaned, Some(Conflict))
        else Outcome(challaned.(trips := challaned.trips[id := challaned.trips[id].(status := Dispatched)]), None)
  }

  function Completing(o: Operations, id: nat): Result<Operations>
  {
    if id >= |o.trips| then Err(NotFound)
    else if o.trips[id].status == TripCancelled then Err(Conflict)
    else if Pending in o.trips[id].stops then Err(Conflict)
    else Ok(o.(trips := o.trips[id := o.trips[id].(status := Completed)]))
  }

  // ---------------------------------------------------------------- planning conserves the orders

  function PlannedOf(variant: VariantId): TripItem -> int
  {
    (item: TripItem) => if item.variant == variant then item.planned else 0
  }

  function OrderedOf(variant: VariantId): StopItem -> int
  {
    (item: StopItem) => if item.variant == variant then item.ordered else 0
  }

  function LoadedOf(variant: VariantId): StopItem -> int
  {
    (item: StopItem) => if item.variant == variant then item.loaded else 0
  }

  /** What an order's items ask of a variant. */
  function Asked(variant: VariantId): OrderItem -> int
  {
    (item: OrderItem) =>
      if item.variant != variant then 0 else if item.approved.Some? then item.approved.value else item.ordered
  }

  lemma {:induction false} TripItemsSum(rows: seq<Row<VariantId, int>>, warehouse: WarehouseId, variant: VariantId)
    ensures Sum(ToTripItems(rows, warehouse), PlannedOf(variant)) == Sum(rows, Weighted(Is(variant), Same))
  {
    if rows != [] {
      TripItemsSum(rows[1..], warehouse, variant);
      assert ToTripItems(rows, warehouse)[1..] == ToTripItems(rows[1..], warehouse);
    }
  }

  /** Planned quantities are what the orders ask, variant by variant. */
  lemma PlannedIsAsked(orders: seq<Order>, warehouse: WarehouseId, variant: VariantId)
    ensures Sum(ToTripItems(Group(AllItems(orders), ItemVariant, 0, AddQuantity), warehouse), PlannedOf(variant))
         == Sum(orders, PerOrder(Asked(variant)))
  {
    var items := AllItems(orders);
    TripItemsSum(Group(items, ItemVariant, 0, AddQuantity), warehouse, variant);
    GroupSum(items, ItemVariant, 0, AddQuantity, Is(variant), Same, Quantity);
    forall i | 0 <= i < |items| ensures Where(Is(variant), ItemVariant, Quantity)(items[i]) == Asked(variant)(items[i]) {
      assert Is(variant)(ItemVariant(items[i])) <==> items[i].variant == variant;
    }
    SumAgree(items, Where(Is(variant), ItemVariant, Quantity), Asked(variant));
    AllItemsSum(orders, Asked(variant));
  }

  lemma {:induction false} OrderStopItemsSum(stop: nat, items: seq<OrderItem>, variant: VariantId)
    ensures Sum(OrderStopItems(stop, items), OrderedOf(variant)) == Sum(items, Asked(variant))
  {
    if items != [] {
      OrderStopItemsSum(stop, items[1..], variant);
      assert OrderStopItems(stop, items)[1..] == OrderStopItems(stop, items[1..]);
    }
  }

  lemma {:induction false} StopItemsSum(orders: seq<Order>, variant: VariantId)
    ensures Sum(StopItems(orders), OrderedOf(variant)) == Sum(orders, PerOrder(Asked(variant)))
  {
    if orders != [] {
      var init, last := orders[..|orders| - 1], orders[|orders| - 1];
      StopItemsSum(init, variant);
      OrderStopItemsSum(|init|, last.items, variant);
      SumConcat(StopItems(init), OrderStopItems(|init|, last.items), OrderedOf(variant));
      SumLast(orders, PerOrder(Asked(variant)));
    }
  }

  lemma {:induction false} StopItemsFresh(orders: seq<Order>, i: nat)
    requires i < |StopItems(orders)|
    ensures var item := StopItems(orders)[i];
      item.ordered >= 0 && item.loaded == item.delivered == item.returned == item.damaged == item.refused == 0
  {
    var init := orders[..|orders| - 1];
    if i < |StopItems(init)| { StopItemsFresh(init, i); }
  }

  lemma {:induction false} PlannedNonNegative(items: seq<OrderItem>)
    ensures forall i :: 0 <= i < |Group(items, ItemVariant, 0, AddQuantity)| ==>
              Group(items, ItemVariant, 0, AddQuantity)[i].value >= 0
  {
    if items != [] {
      var init, item := items[..|items| - 1], items[|items| - 1];
      PlannedNonNegative(init);
      var rows := Group(init, ItemVariant, 0, AddQuantity);
      UpsertNonNegative(rows, item.variant, AddQuantity(Lookup(rows, item.variant, 0), item));
    }
  }

  lemma {:induction false} UpsertNonNegative(rows: seq<Row<VariantId, int>>, key: VariantId, value: int)
    requires forall i :: 0 <= i < |rows| ==> rows[i].value >= 0
    ensures Lookup(rows, key, 0) >= 0
    ensures value >= 0 ==> forall i :: 0 <= i < |Upsert(rows, key, value)| ==> Upsert(rows, key, value)[i].value >= 0
  {
    if rows != [] { UpsertNonNegative(rows[1..], key, value); }
  }

  lemma SortedStopsSum(orders: seq<Order>, sequence: map<nat, int>, variant: VariantId)
    ensures Sum(StopItems(SortBy(orders, VisitedBefore(sequence))), OrderedOf(variant)) == Sum(orders, PerOrder(Asked(variant)))
  {
    var sorted := SortBy(orders, VisitedBefore(sequence));
    StopItemsSum(sorted, variant);
    SortByPermutes(orders, VisitedBefore(sequence));
    SumPermutation(sorted, orders, PerOrder(Asked(variant)));
  }

  // ---------------------------------------------------------------- loading issues the plan

  lemma {:induction false} LoadItemsKeepsBooks(s: Tables, trip: nat, items: seq<TripItem>)
    requires Books(s) && LoadItems(s, trip, items).Ok?
    ensures KeepsBooks(s, LoadItems(s, trip, items).value)
    decreases |items|
  {
    if items != [] {
      if items[0].planned > 0 {
        DrainKeepsBooks(s, FefoIds(s, items[0].warehouse, items[0].variant), items[0].planned, LoadCause(trip, items[0]));
      }
      LoadItemsKeepsBooks(LoadItem(s, trip, items[0]).value, trip, items[1..]);
    }
  }

  /** Loading issues to the trip, variant by variant, exactly what is planned, and nothing to other trips. */
  lemma {:induction false} LoadItemsIssue(s: Tables, id: nat, items: seq<TripItem>, trip: nat, variant: VariantId)
    requires Books(s) && LoadItems(s, id, items).Ok?
    requires forall i :: 0 <= i < |items| ==> items[i].planned >= 0
    ensures Issued(LoadItems(s, id, items).value, trip, variant)
         == Issued(s, trip, variant) + if trip == id then Sum(items, PlannedOf(variant)) else 0
    decreases |items|
  {
    if items != [] {
      var item := items[0];
      var next := LoadItem(s, id, item).value;
      LoadItemIssues(s, id, item, trip, variant);
      LoadItemsIssue(next, id, items[1..], trip, variant);
    }
  }

  lemma LoadItemIssues(s: Tables, id: nat, item: TripItem, trip: nat, variant: VariantId)
    requires Books(s) && item.planned >= 0 && LoadItem(s, id, item).Ok?
    ensures Books(LoadItem(s, id, item).value)
    ensures Issued(LoadItem(s, id, item).value, trip, variant)
         == Issued(s, trip, variant) + if trip == id && item.variant == variant then item.planned else 0
  {
    if item.planned > 0 {
      var ids := FefoIds(s, item.warehouse, item.variant);
      var select := (c: Cause) => c.kind == DispatchOut && c.reference == trip && c.variant == variant;
      FefoIdsMatch(s, item.warehouse, item.variant);
      BooksStock(s, ids);
      LiveShelf(s, ids);
      DrainKeepsBooks(s, ids, item.planned, LoadCause(id, item));
      DrainLogs(s, ids, item.planned, LoadCause(id, item), IssuedTo(trip, variant), select);
    }
  }

  lemma {:induction false} SumOfLoaded(items: seq<TripItem>, loaded: seq<TripItem>, variant: VariantId)
    requires |loaded| == |items| && forall i :: 0 <= i < |items| ==> loaded[i] == LoadedTripItem(items[i])
    ensures Sum(loaded, PlannedOf(variant)) == Sum(items, PlannedOf(variant))
  {
    if items != [] { SumOfLoaded(items[1..], loaded[1..], variant); }
  }

  lemma {:induction false} SumOfOrdered(before: seq<StopItem>, after: seq<StopItem>, variant: VariantId)
    requires |before| == |after|
    requires forall i :: 0 <= i < |before| ==> after[i].variant == before[i].variant && after[i].ordered == before[i].ordered
    ensures Sum(after, OrderedOf(variant)) == Sum(before, OrderedOf(variant))
  {
    if before != [] { SumOfOrdered(before[1..], after[1..], variant); }
  }

  // ---------------------------------------------------------------- what each call asks and gives

  lemma {:induction false} SomeEligible(orders: seq<Order>, cycle: nat, route: nat)
    ensures Eligible(orders, cycle, route) != []
       <==> exists i :: 0 <= i < |orders| && orders[i].cycle == cycle && orders[i].route == Some(route)
                     && orders[i].status in {Approved, Packed}
  {
    if orders != [] {
      SomeEligible(orders[1..], cycle, route);
      var o := orders[0];
      if !(o.cycle == cycle && o.route == Some(route) && o.status in {Approved, Packed}) {
        assert forall i :: 0 < i < |orders| ==> orders[i] == orders[1..][i - 1];
        assert forall i :: 0 <= i < |orders[1..]| ==> orders[1..][i] == orders[i + 1];
      }
    }
  }

  /** A trip can be planned exactly when no other stands for the cycle and route, some approved or packed order
      is on them, and there is a warehouse. It starts planned, without challan, with every stop pending. */
  lemma PlansExactly(trips: seq<Trip>, orders: seq<Order>, sequence: map<nat, int>, warehouse: Option<WarehouseId>, cycle: nat, route: nat)
    ensures var r := Planning(trips, orders, sequence, warehouse, cycle, route);
      && (r.Ok? <==> && warehouse.Some?
                     && (forall i :: 0 <= i < |trips| && trips[i].status != TripCancelled ==> trips[i].cycle != cycle || trips[i].route != route)
                     && (exists i :: 0 <= i < |orders| && orders[i].cycle == cycle && orders[i].route == Some(route)
                                  && orders[i].status in {Approved, Packed}))
      && (r.Ok? ==> && r.value.cycle == cycle && r.value.route == route && r.value.status == Planned && !r.value.challan
                    && (forall k :: 0 <= k < |r.value.stops| ==> r.value.stops[k] == Pending)
                    && (forall k :: 0 <= k < |r.value.items| ==> r.value.items[k].warehouse == warehouse.value))
  {
    SomeEligible(orders, cycle, route);
  }

  /** Stops come in the route's sequence, retailers without one last, and by order date within a place. */
  lemma StopsInVisitingOrder(orders: seq<Order>, sequence: map<nat, int>, i: nat, j: nat)
    requires i < j < |orders|
    ensures var sorted := SortBy(orders, VisitedBefore(sequence));
      && |sorted| == |orders|
      && var a, b := sorted[i], sorted[j];
         var x := if a.retailer in sequence then sequence[a.retailer] else 9007199254740991;
         var y := if b.retailer in sequence then sequence[b.retailer] else 9007199254740991;
         x <= y && (x == y ==> a.orderDate <= b.orderDate)
  {
    SortByLength(orders, VisitedBefore(sequence));
    SortBySorted(orders, VisitedBefore(sequence));
    var sorted := SortBy(orders, VisitedBefore(sequence));
    assert !VisitedBefore(sequence)(sorted[j], sorted[i]);
  }

  /** An order's place in the route and its date. */
  function At(sequence: map<nat, int>, place: int, date: int): Order -> bool
  {
    (o: Order) => (if o.retailer in sequence then sequence[o.retailer] else LAST_STOP) == place && o.orderDate == date
  }

  /** Orders of one place and date keep the order they are in. */
  lemma StopsKeepOrder(orders: seq<Order>, sequence: map<nat, int>, place: int, date: int)
    ensures Filter(SortBy(orders, VisitedBefore(sequence)), At(sequence, place, date)) == Filter(orders, At(sequence, place, date))
  {
    SortByStable(orders, VisitedBefore(sequence), At(sequence, place, date));
  }

  /** Every stop line is a line of its stop's order, for the approved quantity if there is one, nothing handled yet. */
  lemma {:induction false} StopLineOfOrder(orders: seq<Order>, i: nat)
    requires i < |StopItems(orders)|
    ensures var line := StopItems(orders)[i];
      line.stop < |orders| && exists n :: 0 <= n < |orders[line.stop].items| && IsLineOf(line, orders[line.stop].items[n])
  {
    var init := orders[..|orders| - 1];
    if i < |StopItems(init)| {
      StopLineOfOrder(init, i);
    } else {
      var n := i - |StopItems(init)|;
      assert IsLineOf(StopItems(orders)[i], orders[|orders| - 1].items[n]);
    }
  }

  predicate IsLineOf(line: StopItem, item: OrderItem)
  {
    && line.variant == item.variant
    && line.ordered == (if item.approved.Some? then item.approved.value else item.ordered)
    && line.loaded == line.delivered == line.returned == line.damaged == line.refused == 0
    && (line.unitPrice, line.tax, line.lineTotal) == (item.unitPrice, item.tax, item.lineTotal)
  }

  /** Loading an item takes its plan from its own warehouse and variant only. */
  lemma LoadItemOnHand(s: Tables, trip: nat, item: TripItem, w: WarehouseId, v: VariantId)
    requires Books(s) && item.planned >= 0 && OnHand(s, item.warehouse, item.variant) >= 0
    ensures LoadItem(s, trip, item).Ok? <==> item.planned <= OnHand(s, item.warehouse, item.variant)
    ensures LoadItem(s, trip, item).Ok? ==>
      && Books(LoadItem(s, trip, item).value)
      && OnHand(LoadItem(s, trip, item).value, w, v)
         == OnHand(s, w, v) - if w == item.warehouse && v == item.variant then item.planned else 0
  {
    if item.planned > 0 {
      FefoConsumption(s, item.warehouse, item.variant, item.planned, LoadCause(trip, item));
      var ids := FefoIds(s, item.warehouse, item.variant);
      FefoIdsMatch(s, item.warehouse, item.variant);
      BooksStock(s, ids);
      FefoShelfIsOnHand(s, item.warehouse, item.variant);
      DrainOnHand(s, ids, item.planned, LoadCause(trip, item), item.warehouse, item.variant, w, v);
    }
  }

  ghost predicate DistinctItems(items: seq<TripItem>)
  {
    forall i, j :: 0 <= i < j < |items| ==> items[i].variant != items[j].variant
  }

  /** The items of a trip load exactly when each one's plan is in stock. */
  lemma {:induction false} LoadsExactly(s: Tables, trip: nat, items: seq<TripItem>)
    requires Books(s) && DistinctItems(items) && forall i :: 0 <= i < |items| ==> items[i].planned >= 0
    ensures LoadItems(s, trip, items).Ok?
       <==> forall i :: 0 <= i < |items| ==> items[i].planned <= OnHand(s, items[i].warehouse, items[i].variant)
    decreases |items|
  {
    if items != [] {
      var item, rest := items[0], items[1..];
      OnHandNonNegative(s, item.warehouse, item.variant);
      LoadItemOnHand(s, trip, item, item.warehouse, item.variant);
      if LoadItem(s, trip, item).Ok? {
        var next := LoadItem(s, trip, item).value;
        forall i | 0 <= i < |rest| ensures OnHand(next, rest[i].warehouse, rest[i].variant) == OnHand(s, rest[i].warehouse, rest[i].variant) {
          LoadItemOnHand(s, trip, item, rest[i].warehouse, rest[i].variant);
        }
        LoadsExactly(next, trip, rest);
        assert forall i :: 0 < i < |items| ==> items[i] == rest[i - 1];
        assert forall i :: 0 <= i < |rest| ==> rest[i] == items[i + 1];
      }
    }
  }

  /** A start goes through exactly when credit allows it and the trip is loaded, already under way, or can be
      loaded now; only then is the trip dispatched. A refused start leaves at most the loading and the challan. */
  lemma StartsExactly(o: Operations, id: nat, creditAllowed: bool)
    ensures var r := Starting(o, id, creditAllowed);
      && (r.error.None? <==> && id < |o.trips| && creditAllowed
                             && (o.trips[id].status in {Loaded, Dispatched, InTransit}
                                 || (o.trips[id].status == Planned && Loading(o, id).Ok?)))
      && (r.error.None? ==> r.after.trips[id].status == Dispatched && r.after.trips[id].challan)
      && (r.error.Some? && id < |o.trips| ==>
            r.after.trips[id].status == o.trips[id].status || r.after.trips[id].status == Loaded)
      && |r.after.trips| == |o.trips|
      && (forall other :: 0 <= other < |o.trips| && other != id ==> r.after.trips[other] == o.trips[other])
  {
  }

  // ---------------------------------------------------------------- the service

  class DispatchService {
    const db: StockDb
    var trips: seq<Trip>

    constructor (db: StockDb)
      ensures this.db == db && trips == []
    {
      this.db, trips := db, [];
    }

    function Ops(): Operations
      reads this, db
    {
      Operations(db.View(), trips)
    }

    method AggregateTripItems(orders: seq<Order>) returns (rows: seq<Row<VariantId, int>>)
      ensures rows == Group(AllItems(orders), ItemVariant, 0, AddQuantity)
    {
      rows := [];
      for n := 0 to |orders|
        invariant rows == Group(AllItems(orders[..n]), ItemVariant, 0, AddQuantity)
      {
        AllItemsNext(orders, n);
        rows := AddOrderItems(rows, orders[n].items, AllItems(orders[..n]));
      }
      assert orders[..|orders|] == orders;
    }

    /** The inner loop: one order's items on top of the ones `before` it. */
    method AddOrderItems(start: seq<Row<VariantId, int>>, items: seq<OrderItem>, ghost before: seq<OrderItem>)
      returns (rows: seq<Row<VariantId, int>>)
      requires start == Group(before, ItemVariant, 0, AddQuantity)
      ensures rows == Group(before + items, ItemVariant, 0, AddQuantity)
    {
      rows := start;
      ghost var seen := before;
      for k := 0 to |items|
        invariant seen == before + items[..k]
        invariant rows == Group(seen, ItemVariant, 0, AddQuantity)
      {
        var item := items[k];
        GroupNext(seen, item, ItemVariant, 0, AddQuantity);
        rows := Upsert(rows, item.variant, Lookup(rows, item.variant, 0) + Quantity(item));
        seen := seen + [item];
      }
      assert items[..|items|] == items;
    }

    method CreateTrip(orders: seq<Order>, sequence: map<nat, int>, warehouse: Option<WarehouseId>, cycle: nat, route: nat)
      returns (r: Result<nat>)
      modifies this
      ensures var spec := Planning(old(trips), orders, sequence, warehouse, cycle, route);
        && trips == (if spec.Ok? then old(trips) + [spec.value] else old(trips))
        && r == if spec.Ok? then Ok(|old(trips)|) else Err(spec.error)
      ensures r.Ok? <==>
        && warehouse.Some?
        && (forall i :: 0 <= i < |old(trips)| && old(trips)[i].status != TripCancelled ==>
              old(trips)[i].cycle != cycle || old(trips)[i].route != route)
        && (exists i :: 0 <= i < |orders| && orders[i].cycle == cycle && orders[i].route == Some(route)
                     && orders[i].status in {Approved, Packed})
      ensures r.Ok? ==> |trips| == |old(trips)| + 1
      ensures r.Ok? ==>
        var made := trips[|old(trips)|];
        && made.cycle == cycle && made.route == route && made.status == Planned && !made.challan
        && (forall k :: 0 <= k < |made.stops| ==> made.stops[k] == Pending)
        && (forall k :: 0 <= k < |made.items| ==> made.items[k].warehouse == warehouse.value)
    {
      PlansExactly(trips, orders, sequence, warehouse, cycle, route);
      if TripExists(trips, cycle, route) { return Err(Conflict); }
      var eligible := Eligible(orders, cycle, route);
      if eligible == [] { return Err(BadRequest); }
      if warehouse.None? { return Err(NotFound); }
      var rows := AggregateTripItems(eligible);
      var stops, stopItems := PlanStops(SortBy(eligible, VisitedBefore(sequence)));
      SortByLength(eligible, VisitedBefore(sequence));
      r := Ok(|trips|);
      trips := trips + [Trip(cycle, route, Planned, false, ToTripItems(rows, warehouse.value), stops, stopItems)];
    }

    method PlanStops(sorted: seq<Order>) returns (stops: seq<StopStatus>, stopItems: seq<StopItem>)
      ensures stops == NewStops(|sorted|)
      ensures stopItems == StopItems(sorted)
    {
      stops, stopItems := [], [];
      for index := 0 to |sorted|
        invariant stops == NewStops(index)
        invariant stopItems == StopItems(sorted[..index])
      {
        assert sorted[..index + 1][..index] == sorted[..index];
        stops := stops + [Pending];
        stopItems := stopItems + OrderStopItems(index, sorted[index].items);
      }
      assert sorted[..|sorted|] == sorted;
    }

    method GenerateLoadingSheet(id: nat) returns (r: Result<nat>)
      modifies this, db
      ensures var spec := Loading(old(Ops()), id);
        && Ops() == (if spec.Ok? then spec.value else old(Ops()))
        && r == if spec.Ok? then Ok(id) else Err(spec.error)
    {
      if id >= |trips| { return Err(NotFound); }
      var trip := trips[id];
      if trip.status in {Dispatched, InTransit, Completed, Reconciled, TripCancelled} { return Err(Conflict); }
      if trip.items == [] { return Err(BadRequest); }
      if trip.status == Loaded && CurrentlyLoaded(trip) { return Ok(id); }
      var loading := LoadAll(id, trip.items);
      if loading.Err? { return Err(loading.error); }
      var stopItems := trip.stopItems;
      for n := 0 to |stopItems|
        invariant |stopItems| == |trip.stopItems|
        invariant forall i :: 0 <= i < n ==> stopItems[i] == trip.stopItems[i].(loaded := trip.stopItems[i].ordered)
        invariant forall i :: n <= i < |stopItems| ==> stopItems[i] == trip.stopItems[i]
      {
        stopItems := stopItems[n := stopItems[n].(loaded := stopItems[n].ordered)];
      }
      trips := trips[id := trip.(status := Loaded, items := loading.value, stopItems := stopItems)];
      assert trips[id] == LoadedTrip(trip);
      return Ok(id);
    }

    /** Issues every item's planned quantity and returns the loaded items, or rolls back. */
    method LoadAll(id: nat, items: seq<TripItem>) returns (r: Result<seq<TripItem>>)
      modifies db
      ensures var spec := LoadItems(old(db.View()), id, items);
        && (r == if spec.Ok? then Ok(LoadedTripItems(items)) else Err(spec.error))
        && db.View() == if spec.Ok? then spec.value else old(db.View())
    {
      var batches, log := db.batches, db.log;
      ghost var goal := LoadItems(db.View(), id, items);
      var loaded: seq<TripItem> := [];
      for n := 0 to |items|
        invariant LoadItems(db.View(), id, items[n..]) == goal
        invariant |loaded| == n && forall i :: 0 <= i < n ==> loaded[i] == LoadedTripItem(items[i])
      {
        var item := items[n];
        assert items[n..][1..] == items[n + 1..];
        if item.planned <= 0 {
          loaded := loaded + [item];
        } else {
          var issued := IssuePlanned(id, item);
          if issued.Err? {
            db.batches, db.log := batches, log;  // the transaction rolls back
            return Err(issued.error);
          }
          loaded := loaded + [item.(loaded := item.planned)];
        }
      }
      assert loaded == LoadedTripItems(items);
      return Ok(loaded);
    }

    method IssuePlanned(id: nat, item: TripItem) returns (r: Result<()>)
      requires item.planned > 0
      modifies db
      ensures var spec := LoadItem(old(db.View()), id, item);
        && (r == if spec.Ok? then Ok(()) else Err(spec.error))
        && db.View() == if spec.Ok? then spec.value else old(db.View())
      ensures r.Ok? && Books(old(db.View())) ==> TakesEarliestFirst(old(db.batches), db.batches, item.warehouse, item.variant)
    {
      if Books(db.View()) {
        DrainTakesEarliestFirst(db.View(), item.warehouse, item.variant, item.planned, LoadCause(id, item));
      }
      var ids := FefoIds(db.View(), item.warehouse, item.variant);
      var live := Live(db.View(), ids);
      FefoIdsMatch(db.View(), item.warehouse, item.variant);
      LiveMembers(db.View(), ids);
      DrainLive(db.View(), ids, db.View(), item.planned, LoadCause(id, item));
      var totalAvailable := Total(Shelf(db.View(), live));
      if totalAvailable < item.planned { return Err(BadRequest); }
      ConsumeBatches(id, item, live, Rows(db.View(), live));
      return Ok(());
    }

    /** The loading loop over the rows the query returned. */
    method ConsumeBatches(id: nat, item: TripItem, live: seq<BatchId>, found: seq<Batch>)
      requires InTable(db.View(), live) && NoRepeats(live) && found == Rows(db.View(), live)
      requires forall k :: 0 <= k < |found| ==> found[k].available > 0
      modifies db
      ensures db.View() == Drain(old(db.View()), live, item.planned, LoadCause(id, item))
    {
      ghost var goal := Drain(db.View(), live, item.planned, LoadCause(id, item));
      var remaining, n := item.planned, 0;
      while n < |live|
        invariant 0 <= n <= |live| && InTable(db.View(), live)
        invariant Drain(db.View(), live[n..], remaining, LoadCause(id, item)) == goal
        invariant forall k :: n <= k < |live| ==> db.batches[live[k]] == found[k]
      {
        if remaining <= 0 { break; }
        DrainStep(db.View(), live, n, remaining, LoadCause(id, item));
        var available := found[n].available;
        var consume := Min(available, remaining);
        remaining := remaining - consume;
        db.TakeOut(live[n], found[n], consume, LoadCause(id, item));
        n := n + 1;
      }
    }

    method Start(id: nat, creditAllowed: bool) returns (error: Option<Failure>)
      modifies this, db
      ensures var spec := Starting(old(Ops()), id, creditAllowed);
        Ops() == spec.after && error == spec.error
      ensures |trips| == |old(trips)|
      ensures error.None? ==> && id < |trips| && creditAllowed && trips[id].status == Dispatched && trips[id].challan
                              && old(trips)[id].status in {Planned, Loaded, Dispatched, InTransit}
      ensures error.Some? && id < |trips| ==> trips[id].status == old(trips)[id].status || trips[id].status == Loaded
      ensures forall other :: 0 <= other < |trips| && other != id ==> trips[other] == old(trips)[other]
    {
      StartsExactly(Ops(), id, creditAllowed);
      if id >= |trips| { return Some(NotFound); }
      if trips[id].status == TripCancelled { return Some(Conflict); }
      if trips[id].status == Planned {
        var loading := GenerateLoadingSheet(id);
        if loading.Err? { return Some(loading.error); }
      }
      if !trips[id].challan {
        trips := trips[id := trips[id].(challan := true)];
      }
      if trips[id].status !in {Loaded, Dispatched, InTransit} { return Some(BadRequest); }
      if !creditAllowed { return Some(Conflict); }
      trips := trips[id := trips[id].(status := Dispatched)];
      return None;
    }

    method Complete(id: nat) returns (r: Result<nat>)
      modifies this
      ensures var spec := Completing(old(Ops()), id);
        && Ops() == (if spec.Ok? then spec.value else old(Ops()))
        && r == if spec.Ok? then Ok(id) else Err(spec.error)
      ensures r.Ok? <==> id < |old(trips)| && old(trips)[id].status != TripCancelled
                         && forall k :: 0 <= k < |old(trips)[id].stops| ==> old(trips)[id].stops[k] != Pending
      ensures r.Ok? ==> trips == old(trips)[id := old(trips)[id].(status := Completed)]
    {
      if id >= |trips| { return Err(NotFound); }
      if trips[id].status == TripCancelled { return Err(Conflict); }
      if Pending in trips[id].stops { return Err(Conflict); }
      trips := trips[id := trips[id].(status := Completed)];
      return Ok(id);
    }
  }
}
