/** Sales orders as dispatch and demand planning read them. */
module Orders {
  import opened Wrappers
  import opened Sums
  import opened Stock

  datatype OrderStatus = Draft | Approved | Packed | Shipped | Cancelled

  datatype OrderItem = OrderItem(variant: VariantId, ordered: nat, approved: Option<nat>, unitPrice: real, tax: real, lineTotal: real)

  datatype Order = Order(
    id: nat, cycle: nat, route: Option<nat>, retailer: nat, orderDate: int, status: OrderStatus, items: seq<OrderItem>)

  /** `approvedQty ?? orderedQty` */
  function Quantity(item: OrderItem): int
  {
    if item.approved.Some? then item.approved.value else item.ordered
  }

  function Ordered(item: OrderItem): int { item.ordered }

  function ItemVariant(item: OrderItem): VariantId { item.variant }

  function AllItems(orders: seq<Order>): seq<OrderItem>
  {
    if orders == [] then [] else orders[0].items + AllItems(orders[1..])
  }

  /** Weighs an order by the sum over its items. */
  function PerOrder(f: OrderItem -> int): Order -> int
  {
    (o: Order) => Sum(o.items, f)
  }

  /** Summing over all items is summing order by order. */
  lemma {:induction false} AllItemsSum(orders: seq<Order>, f: OrderItem -> int)
    ensures Sum(AllItems(orders), f) == Sum(orders, PerOrder(f))
  {
    if orders != [] {
      AllItemsSum(orders[1..], f);
      SumConcat(orders[0].items, AllItems(orders[1..]), f);
    }
  }

  lemma {:induction false} AllItemsNext(orders: seq<Order>, n: nat)
    requires n < |orders|
    ensures AllItems(orders[..n + 1]) == AllItems(orders[..n]) + orders[n].items
  {
    if n == 0 {
      assert orders[..1][1..] == [];
    } else {
      AllItemsNext(orders[1..], n - 1);
      assert orders[..n + 1][1..] == orders[1..][..n] && orders[..n][1..] == orders[1..][..n - 1];
    }
  }
}
