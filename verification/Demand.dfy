/** Demand consolidation: the same orders totalled by variant, by route and by area
    (demand-consolidations.service.ts). */
module Demand {
  import opened Wrappers
  import opened Sums
  import opened Sorting
  import opened Tally
  import opened Stock
  import opened Orders
  import opened Dispatch

  datatype DemandTotals = DemandTotals(ordered: int, approved: int, buffer: int, procurement: int)

  datatype RouteTotals = RouteTotals(orders: int, ordered: int, approved: int)

  datatype AreaTotals = AreaTotals(routes: int, orders: int, ordered: int, approved: int)

  const NO_DEMAND := DemandTotals(0, 0, 0, 0)
  const NO_ROUTE := RouteTotals(0, 0, 0)
  const NO_AREA := AreaTotals(0, 0, 0, 0)

  function AddDemand(t: DemandTotals, item: OrderItem): DemandTotals
  {
    var approved := t.approved + Quantity(item);
    t.(ordered := t.ordered + item.ordered, approved := approved, procurement := approved)
  }

  function RouteOf(o: Order): Option<nat> { o.route }

  function OrderedIn(o: Order): int { Sum(o.items, Ordered) }

  function ApprovedIn(o: Order): int { Sum(o.items, Quantity) }

  function AddOrder(t: RouteTotals, o: Order): RouteTotals
  {
    RouteTotals(t.orders + 1, t.ordered + OrderedIn(o), t.approved + ApprovedIn(o))
  }

  type RouteRow = Row<Option<nat>, RouteTotals>

  /** A route's area; routes without one, and orders without a route, are unassigned. */
  function AreaOf(areas: map<nat, nat>): RouteRow -> Option<nat>
  {
    (r: RouteRow) => if r.key.Some? && r.key.value in areas then Some(areas[r.key.value]) else None
  }

  function AddRoute(t: AreaTotals, r: RouteRow): AreaTotals
  {
    AreaTotals(t.routes + 1, t.orders + r.value.orders, t.ordered + r.value.ordered, t.approved + r.value.approved)
  }

  function ByVariant(orders: seq<Order>): seq<Row<VariantId, DemandTotals>>
  {
    Group(AllItems(orders), ItemVariant, NO_DEMAND, AddDemand)
  }

  function ByRoute(orders: seq<Order>): seq<RouteRow>
  {
    Group(orders, RouteOf, NO_ROUTE, AddOrder)
  }

  function ByArea(orders: seq<Order>, areas: map<nat, nat>): seq<Row<Option<nat>, AreaTotals>>
  {
    Group(ByRoute(orders), AreaOf(areas), NO_AREA, AddRoute)
  }

  // ---------------------------------------------------------------- the loops

  method AggregateDemandItems(orders: seq<Order>) returns (rows: seq<Row<VariantId, DemandTotals>>)
    ensures rows == ByVariant(orders)
  {
    rows := [];
    for n := 0 to |orders|
      invariant rows == ByVariant(orders[..n])
    {
      rows := AddOrderDemand(rows, orders[n].items, AllItems(orders[..n]));
      AllItemsNext(orders, n);
    }
    assert orders[..|orders|] == orders;
  }

  /** The inner loop, over one order's items. */
  method AddOrderDemand(rows: seq<Row<VariantId, DemandTotals>>, items: seq<OrderItem>, ghost before: seq<OrderItem>)
    returns (after: seq<Row<VariantId, DemandTotals>>)
    requires rows == Group(before, ItemVariant, NO_DEMAND, AddDemand)
    ensures after == Group(before + items, ItemVariant, NO_DEMAND, AddDemand)
  {
    after := rows;
    ghost var seen := before;
    for k := 0 to |items|
      invariant seen == before + items[..k]
      invariant after == Group(seen, ItemVariant, NO_DEMAND, AddDemand)
    {
      var item := items[k];
      var current := Lookup(after, item.variant, NO_DEMAND);
      var approved := current.approved + Quantity(item);
      GroupNext(seen, item, ItemVariant, NO_DEMAND, AddDemand);
      after := Upsert(after, item.variant, current.(ordered := current.ordered + item.ordered,
                                                    approved := approved, procurement := approved));
      seen := seen + [item];
    }
    assert items[..|items|] == items;
  }

  method BuildDemandTotals(rows: seq<Row<VariantId, DemandTotals>>) returns (totals: DemandTotals)
    ensures totals == DemandTotals(Over(rows, DemandOrdered), Over(rows, DemandApproved), Over(rows, DemandBuffer),
                                   Over(rows, DemandProcurement))
  {
    totals := NO_DEMAND;
    for n := 0 to |rows|
      invariant totals == DemandTotals(Over(rows[..n], DemandOrdered), Over(rows[..n], DemandApproved),
                                       Over(rows[..n], DemandBuffer), Over(rows[..n], DemandProcurement))
    {
      var d := rows[n].value;
      assert rows[..n + 1] == rows[..n] + [rows[n]];
      OverNext(rows[..n], rows[n], DemandOrdered);
      OverNext(rows[..n], rows[n], DemandApproved);
      OverNext(rows[..n], rows[n], DemandBuffer);
      OverNext(rows[..n], rows[n], DemandProcurement);
      totals := DemandTotals(totals.ordered + d.ordered, totals.approved + d.approved, totals.buffer + d.buffer,
                             totals.procurement + d.procurement);
    }
    assert rows[..|rows|] == rows;
  }

  method RouteWiseSummary(orders: seq<Order>) returns (rows: seq<RouteRow>)
    ensures rows == ByRoute(orders)
  {
    rows := [];
    for n := 0 to |orders|
      invariant rows == ByRoute(orders[..n])
    {
      var current := Lookup(rows, orders[n].route, NO_ROUTE);
      GroupNext(orders[..n], orders[n], RouteOf, NO_ROUTE, AddOrder);
      assert orders[..n + 1] == orders[..n] + [orders[n]];
      rows := Upsert(rows, orders[n].route, RouteTotals(current.orders + 1, current.ordered + OrderedIn(orders[n]),
                                                        current.approved + ApprovedIn(orders[n])));
    }
    assert orders[..|orders|] == orders;
  }

  method AreaWiseSummary(orders: seq<Order>, areas: map<nat, nat>) returns (rows: seq<Row<Option<nat>, AreaTotals>>)
    ensures rows == ByArea(orders, areas)
  {
    var routes := RouteWiseSummary(orders);
    rows := [];
    for n := 0 to |routes|
      invariant rows == Group(routes[..n], AreaOf(areas), NO_AREA, AddRoute)
    {
      var route := routes[n];
      var key := if route.key.Some? && route.key.value in areas then Some(areas[route.key.value]) else None;
      var current := Lookup(rows, key, NO_AREA);
      GroupNext(routes[..n], route, AreaOf(areas), NO_AREA, AddRoute);
      assert routes[..n + 1] == routes[..n] + [route];
      assert AreaOf(areas)(route) == key;
      rows := Upsert(rows, key, AreaTotals(current.routes + 1, current.orders + route.value.orders,
                                           current.ordered + route.value.ordered, current.approved + route.value.approved));
    }
    assert routes[..|routes|] == routes;
  }

  // ---------------------------------------------------------------- the totals agree

  /** The sum of a quantity over all groups. */
  function Over<K, V>(rows: seq<Row<K, V>>, w: V -> int): int
  {
    Sum(rows, Weighted(Any(), w))
  }

  lemma OverNext<K, V>(rows: seq<Row<K, V>>, row: Row<K, V>, w: V -> int)
    ensures Over(rows + [row], w) == Over(rows, w) + w(row.value)
  {
    SumAppend(rows, row, Weighted(Any(), w));
  }

  /** Whatever the keys, the groups together weigh what the rows together weigh. */
  lemma OverGroups<T, K, V(!new)>(xs: seq<T>, key: T -> K, zero: V, add: (V, T) -> V, w: V -> int, delta: T -> int)
    requires w(zero) == 0
    requires forall i, v :: 0 <= i < |xs| ==> w(add(v, xs[i])) == w(v) + delta(xs[i])
    ensures Over(Group(xs, key, zero, add), w) == Sum(xs, delta)
  {
    GroupSum(xs, key, zero, add, Any(), w, delta);
    SumAgree(xs, Where(Any(), key, delta), delta);
  }

  function DemandOrdered(t: DemandTotals): int { t.ordered }
  function DemandApproved(t: DemandTotals): int { t.approved }
  function DemandBuffer(t: DemandTotals): int { t.buffer }
  function DemandProcurement(t: DemandTotals): int { t.procurement }
  function RouteOrders(t: RouteTotals): int { t.orders }
  function RouteOrdered(t: RouteTotals): int { t.ordered }
  function RouteApproved(t: RouteTotals): int { t.approved }
  function AreaOrders(t: AreaTotals): int { t.orders }
  function AreaOrdered(t: AreaTotals): int { t.ordered }
  function AreaApproved(t: AreaTotals): int { t.approved }
  function One(o: Order): int { 1 }

  /** A quantity of a route row, as the area totals read it. */
  function InRow(w: RouteTotals -> int): RouteRow -> int { (r: RouteRow) => w(r.value) }

  lemma AreasAgree(orders: seq<Order>, areas: map<nat, nat>, w: AreaTotals -> int, u: RouteTotals -> int)
    requires w(NO_AREA) == 0 && forall t, r: RouteRow :: w(AddRoute(t, r)) == w(t) + u(r.value)
    ensures Over(ByArea(orders, areas), w) == Over(ByRoute(orders), u)
  {
    OverGroups(ByRoute(orders), AreaOf(areas), NO_AREA, AddRoute, w, InRow(u));
    SumAgree(ByRoute(orders), InRow(u), Weighted(Any(), u));
  }

  lemma VariantsAgree(orders: seq<Order>)
    ensures Over(ByVariant(orders), DemandOrdered) == Sum(orders, OrderedIn)
    ensures Over(ByVariant(orders), DemandApproved) == Sum(orders, ApprovedIn)
  {
    OverGroups(AllItems(orders), ItemVariant, NO_DEMAND, AddDemand, DemandOrdered, Ordered);
    OverGroups(AllItems(orders), ItemVariant, NO_DEMAND, AddDemand, DemandApproved, Quantity);
    AllItemsSum(orders, Ordered);
    AllItemsSum(orders, Quantity);
    SumAgree(orders, PerOrder(Ordered), OrderedIn);
    SumAgree(orders, PerOrder(Quantity), ApprovedIn);
  }

  lemma {:induction false} CountOrders(orders: seq<Order>)
    ensures Sum(orders, One) == |orders|
  {
    if orders != [] { CountOrders(orders[1..]); }
  }

  /** For any orders, the ordered totals by variant, route and area are equal, so are the approved totals,
      and route and area order counts both come to the number of orders. */
  lemma GroupingExchange(orders: seq<Order>, areas: map<nat, nat>)
    ensures Over(ByVariant(orders), DemandOrdered) == Over(ByRoute(orders), RouteOrdered) == Over(ByArea(orders, areas), AreaOrdered)
    ensures Over(ByVariant(orders), DemandApproved) == Over(ByRoute(orders), RouteApproved) == Over(ByArea(orders, areas), AreaApproved)
    ensures Over(ByRoute(orders), RouteOrders) == Over(ByArea(orders, areas), AreaOrders) == |orders|
  {
    VariantsAgree(orders);
    OverGroups(orders, RouteOf, NO_ROUTE, AddOrder, RouteOrdered, OrderedIn);
    OverGroups(orders, RouteOf, NO_ROUTE, AddOrder, RouteApproved, ApprovedIn);
    OverGroups(orders, RouteOf, NO_ROUTE, AddOrder, RouteOrders, One);
    CountOrders(orders);
    AreasAgree(orders, areas, AreaOrdered, RouteOrdered);
    AreasAgree(orders, areas, AreaApproved, RouteApproved);
    AreasAgree(orders, areas, AreaOrders, RouteOrders);
  }

  // ---------------------------------------------------------------- consolidated demand and trips

  /** A variant's approved quantity in the consolidation. */
  function Consolidated(orders: seq<Order>, variant: VariantId): int
  {
    Lookup(ByVariant(orders), variant, NO_DEMAND).approved
  }

  lemma ConsolidatedIsAsked(orders: seq<Order>, variant: nat)
    ensures Consolidated(orders, variant) == Sum(orders, PerOrder(Asked(variant)))
  {
    var items := AllItems(orders);
    GroupLookup(items, ItemVariant, NO_DEMAND, AddDemand, variant, DemandApproved, Quantity);
    SumAgree(items, Where(Is(variant), ItemVariant, Quantity), Asked(variant));
    AllItemsSum(orders, Asked(variant));
  }

  /** What the trips planned for these routes plan of a variant. */
  function PlannedOver(orders: seq<Order>, cycle: nat, routes: seq<nat>, warehouse: WarehouseId, variant: VariantId): int
  {
    if routes == [] then 0
    else
      var trip := PlannedTrip(Eligible(orders, cycle, routes[0]), map[], warehouse, cycle, routes[0]);
      Sum(trip.items, PlannedOf(variant)) + PlannedOver(orders, cycle, routes[1..], warehouse, variant)
  }

  /** An order the trips of these routes in the cycle carry. */
  predicate Carried(o: Order, cycle: nat, routes: seq<nat>)
  {
    o.cycle == cycle && o.status in {Approved, Packed} && o.route.Some? && o.route.value in routes
  }

  /** Weighs the orders those trips carry by what they ask of a variant. */
  function OnTrips(cycle: nat, routes: seq<nat>, variant: VariantId): Order -> int
  {
    (o: Order) => if Carried(o, cycle, routes) then PerOrder(Asked(variant))(o) else 0
  }

  function OffTrips(cycle: nat, routes: seq<nat>, variant: VariantId): Order -> int
  {
    (o: Order) => if Carried(o, cycle, routes) then 0 else PerOrder(Asked(variant))(o)
  }

  lemma {:induction false} EligibleSum(orders: seq<Order>, cycle: nat, route: nat, variant: nat)
    ensures Sum(Eligible(orders, cycle, route), PerOrder(Asked(variant))) == Sum(orders, OnTrips(cycle, [route], variant))
  {
    if orders != [] {
      EligibleSum(orders[1..], cycle, route, variant);
      var o := orders[0];
      var rest := Eligible(orders[1..], cycle, route);
      if Carried(o, cycle, [route]) {
        assert ([o] + rest)[1..] == rest;
      } else {
        assert [] + rest == rest;
      }
    }
  }

  lemma {:induction false} PlannedOverRoutes(orders: seq<Order>, cycle: nat, routes: seq<nat>, warehouse: nat, variant: nat)
    requires NoRepeats(routes)
    ensures PlannedOver(orders, cycle, routes, warehouse, variant) == Sum(orders, OnTrips(cycle, routes, variant))
  {
    if routes == [] {
      forall i | 0 <= i < |orders| ensures OnTrips(cycle, routes, variant)(orders[i]) == 0 {
        assert !Carried(orders[i], cycle, routes);
      }
      SumZero(orders, OnTrips(cycle, routes, variant));
    } else {
      var route, rest := routes[0], routes[1..];
      PlannedIsAsked(Eligible(orders, cycle, route), warehouse, variant);
      EligibleSum(orders, cycle, route, variant);
      PlannedOverRoutes(orders, cycle, rest, warehouse, variant);
      assert route !in rest;
      assert forall r :: r in routes <==> r == route || r in rest;
      SumSplit(orders, OnTrips(cycle, routes, variant), OnTrips(cycle, [route], variant), OnTrips(cycle, rest, variant));
    }
  }

  /** Splitting consolidated orders into one trip per route: a variant's consolidated demand is what the trips
      plan plus what orders they do not carry ask (off those routes, of another cycle, or neither approved nor
      packed), so the two agree exactly when those ask none of it. */
  lemma DemandSplitsIntoTrips(orders: seq<Order>, cycle: nat, routes: seq<nat>, warehouse: nat, variant: nat)
    requires NoRepeats(routes)
    ensures Consolidated(orders, variant)
         == PlannedOver(orders, cycle, routes, warehouse, variant) + Sum(orders, OffTrips(cycle, routes, variant))
    ensures (Consolidated(orders, variant) == PlannedOver(orders, cycle, routes, warehouse, variant))
       <==> (forall i :: 0 <= i < |orders| ==> OffTrips(cycle, routes, variant)(orders[i]) == 0)
  {
    var off := OffTrips(cycle, routes, variant);
    ConsolidatedIsAsked(orders, variant);
    PlannedOverRoutes(orders, cycle, routes, warehouse, variant);
    SumSplit(orders, PerOrder(Asked(variant)), OnTrips(cycle, routes, variant), off);
    forall i | 0 <= i < |orders| ensures off(orders[i]) >= 0 {
      SumNonNegative(orders[i].items, Asked(variant));
    }
    SumNonNegative(orders, off);
    if forall i :: 0 <= i < |orders| ==> off(orders[i]) == 0 {
      SumZero(orders, off);
    }
  }

  // ---------------------------------------------------------------- single rows

  function OfVariant(variant: VariantId): OrderItem -> int
  {
    (item: OrderItem) => if item.variant == variant then item.ordered else 0
  }

  lemma {:induction false} ProcuresApproved(items: seq<OrderItem>, variant: nat)
    ensures var row := Lookup(Group(items, ItemVariant, NO_DEMAND, AddDemand), variant, NO_DEMAND);
      row.procurement == row.approved && row.buffer == 0
  {
    if items != [] {
      var init, item := items[..|items| - 1], items[|items| - 1];
      var rows := Group(init, ItemVariant, NO_DEMAND, AddDemand);
      ProcuresApproved(init, variant);
      LookupUpsert(rows, item.variant, AddDemand(Lookup(rows, item.variant, NO_DEMAND), item), variant, NO_DEMAND);
    }
  }

  /** A consolidated row: what the orders order and ask of the variant, all of it to be procured, no buffer. */
  lemma ConsolidatedRow(orders: seq<Order>, variant: nat)
    ensures var row := Lookup(ByVariant(orders), variant, NO_DEMAND);
      && row.ordered == Sum(orders, PerOrder(OfVariant(variant)))
      && row.approved == row.procurement == Sum(orders, PerOrder(Asked(variant)))
      && row.buffer == 0
  {
    var items := AllItems(orders);
    ConsolidatedIsAsked(orders, variant);
    GroupLookup(items, ItemVariant, NO_DEMAND, AddDemand, variant, DemandOrdered, Ordered);
    ProcuresApproved(items, variant);
    forall i | 0 <= i < |items| ensures Where(Is(variant), ItemVariant, Ordered)(items[i]) == OfVariant(variant)(items[i]) {
      assert Is(variant)(ItemVariant(items[i])) <==> items[i].variant == variant;
    }
    SumAgree(items, Where(Is(variant), ItemVariant, Ordered), OfVariant(variant));
    AllItemsSum(orders, OfVariant(variant));
  }

  /** Weighs the orders of a route. */
  function OfRoute(route: Option<nat>, f: Order -> int): Order -> int
  {
    (o: Order) => if o.route == route then f(o) else 0
  }

  /** A route's row counts and sums exactly the orders of that route; without a route, those that have none. */
  lemma RouteRowExactly(orders: seq<Order>, route: Option<nat>)
    ensures var row := Lookup(ByRoute(orders), route, NO_ROUTE);
      && row.orders == Sum(orders, OfRoute(route, One))
      && row.ordered == Sum(orders, OfRoute(route, OrderedIn))
      && row.approved == Sum(orders, OfRoute(route, ApprovedIn))
  {
    RouteRowBy(orders, route, RouteOrders, One);
    RouteRowBy(orders, route, RouteOrdered, OrderedIn);
    RouteRowBy(orders, route, RouteApproved, ApprovedIn);
  }

  lemma RouteRowBy(orders: seq<Order>, route: Option<nat>, w: RouteTotals -> int, f: Order -> int)
    requires w(NO_ROUTE) == 0 && forall t, o :: w(AddOrder(t, o)) == w(t) + f(o)
    ensures w(Lookup(ByRoute(orders), route, NO_ROUTE)) == Sum(orders, OfRoute(route, f))
  {
    GroupLookup(orders, RouteOf, NO_ROUTE, AddOrder, route, w, f);
    forall i | 0 <= i < |orders| ensures Where(Is(route), RouteOf, f)(orders[i]) == OfRoute(route, f)(orders[i]) {
      assert Is(route)(RouteOf(orders[i])) <==> orders[i].route == route;
    }
    SumAgree(orders, Where(Is(route), RouteOf, f), OfRoute(route, f));
  }

  /** Weighs the route rows of an area; routes without an area, and no route, have none. */
  function InArea(areas: map<nat, nat>, area: Option<nat>, w: RouteTotals -> int): RouteRow -> int
  {
    (r: RouteRow) =>
      if area == (if r.key.Some? && r.key.value in areas then Some(areas[r.key.value]) else None) then w(r.value) else 0
  }

  /** An area's row sums exactly the route rows of that area. */
  lemma AreaRowExactly(orders: seq<Order>, areas: map<nat, nat>, area: Option<nat>)
    ensures var row := Lookup(ByArea(orders, areas), area, NO_AREA);
      && row.orders == Sum(ByRoute(orders), InArea(areas, area, RouteOrders))
      && row.ordered == Sum(ByRoute(orders), InArea(areas, area, RouteOrdered))
      && row.approved == Sum(ByRoute(orders), InArea(areas, area, RouteApproved))
      && row.routes == Sum(ByRoute(orders), InArea(areas, area, OneRoute))
  {
    AreaRowBy(orders, areas, area, AreaOrders, RouteOrders);
    AreaRowBy(orders, areas, area, AreaOrdered, RouteOrdered);
    AreaRowBy(orders, areas, area, AreaApproved, RouteApproved);
    AreaRowBy(orders, areas, area, AreaRoutes, OneRoute);
  }

  function AreaRoutes(t: AreaTotals): int { t.routes }
  function OneRoute(t: RouteTotals): int { 1 }

  lemma AreaRowBy(orders: seq<Order>, areas: map<nat, nat>, area: Option<nat>, w: AreaTotals -> int, u: RouteTotals -> int)
    requires w(NO_AREA) == 0 && forall t, r: RouteRow :: w(AddRoute(t, r)) == w(t) + u(r.value)
    ensures w(Lookup(ByArea(orders, areas), area, NO_AREA)) == Sum(ByRoute(orders), InArea(areas, area, u))
  {
    var rows := ByRoute(orders);
    GroupLookup(rows, AreaOf(areas), NO_AREA, AddRoute, area, w, InRow(u));
    forall i | 0 <= i < |rows| ensures Where(Is(area), AreaOf(areas), InRow(u))(rows[i]) == InArea(areas, area, u)(rows[i]) {
      assert Is(area)(AreaOf(areas)(rows[i])) <==> area == AreaOf(areas)(rows[i]);
    }
    SumAgree(rows, Where(Is(area), AreaOf(areas), InRow(u)), InArea(areas, area, u));
  }
}
