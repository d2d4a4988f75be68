/** Recording what happened at a delivery stop (delivery.service.ts). */
module Delivery {
  import opened Wrappers
  import opened Sums
  import opened Stock
  import opened Dispatch
  import opened Rounding

  /** Quantities a driver reports for a variant; returned and damaged may be omitted. */
  datatype ItemUpdate = ItemUpdate(delivered: int, returned: Option<int>, damaged: Option<int>)

  datatype StopUpdate = StopUpdate(status: StopStatus, items: map<VariantId, ItemUpdate>)

  /** `item.loadedQty || item.orderedQty`: whether a stored zero counts as absent depends on the value's
      representation, so both readings are kept. */
  function LoadedQty(item: StopItem, zeroIsAbsent: bool): int
  {
    if zeroIsAbsent && item.loaded == 0 then item.ordered else item.loaded
  }

  function Handled(item: StopItem): int
  {
    item.delivered + item.returned + item.damaged + item.refused
  }

  function Optional(x: Option<int>, default: int): int
  {
    if x.Some? then x.value else default
  }

  /** Money for a quantity in thousandths. */
  function Amount(unitPrice: real, qty: int): real
  {
    unitPrice * (qty as real / 1000.0)
  }

  function EstimateTaxRate(item: StopItem, zeroIsAbsent: bool): real
  {
    var base := Amount(item.unitPrice, LoadedQty(item, zeroIsAbsent));
    if base <= 0.0 then 0.0 else Round2(item.tax / base * 100.0)
  }

  /** The tax on a rounded amount, under a rounding of money. */
  function TaxOn(round: real -> real, amount: real, rate: real): real
  {
    round(round(amount) * rate / 100.0)
  }

  function Repriced(item: StopItem, rate: real): StopItem
  {
    var amount := Amount(item.unitPrice, item.delivered);
    var tax := TaxOn(Round2, amount, rate);
    item.(tax := tax, lineTotal := Round2(Round2(amount) + tax))
  }

  function Quantities(item: StopItem, status: StopStatus, update: Option<ItemUpdate>, loaded: int): Result<StopItem>
  {
    match status
    case Delivered =>
      Ok(item.(delivered := if update.Some? then update.value.delivered else loaded,
               returned := if update.Some? then Optional(update.value.returned, 0) else 0,
               damaged := if update.Some? then Optional(update.value.damaged, 0) else 0,
               refused := 0))
    case Partial =>
      if update.None? then Err(BadRequest)
      else Ok(item.(delivered := update.value.delivered,
                    returned := Optional(update.value.returned, Max(loaded - update.value.delivered, 0)),
                    damaged := Optional(update.value.damaged, 0),
                    refused := 0))
    case Refused => Ok(item.(delivered := 0, returned := 0, damaged := 0, refused := loaded))
    case Failed => Ok(item.(delivered := 0, returned := loaded, damaged := 0, refused := 0))
    case Pending => Ok(item)
  }

  /** The quantities of one line's update; more than the loaded quantity plus a thousandth is rejected. */
  function Requantified(item: StopItem, update: StopUpdate, zeroIsAbsent: bool): Result<StopItem>
  {
    var loaded := LoadedQty(item, zeroIsAbsent);
    var reported := if item.variant in update.items then Some(update.items[item.variant]) else None;
    var q := Quantities(item, update.status, reported, loaded);
    if q.Ok? && Handled(q.value) > loaded + 1 then Err(BadRequest) else q
  }

  /** One line's update: its quantities, then its money. */
  function UpdateItem(item: StopItem, update: StopUpdate, zeroIsAbsent: bool): Result<StopItem>
  {
    var q := Requantified(item, update, zeroIsAbsent);
    if q.Err? then q else Ok(Repriced(q.value, EstimateTaxRate(item, zeroIsAbsent)))
  }

  /** Updates the lines of one stop, all or none. */
  function UpdateItems(items: seq<StopItem>, stop: nat, update: StopUpdate, zeroIsAbsent: bool): Result<seq<StopItem>>
    decreases |items|
  {
    if items == [] then Ok([])
    else
      var first := if items[0].stop == stop then UpdateItem(items[0], update, zeroIsAbsent) else Ok(items[0]);
      if first.Err? then Err(first.error)
      else
        var rest := UpdateItems(items[1..], stop, update, zeroIsAbsent);
        if rest.Err? then rest else Ok([first.value] + rest.value)
  }

  /** The lines already updated, and then the rest if none of it fails. */
  function After(updated: seq<StopItem>, rest: Result<seq<StopItem>>): Result<seq<StopItem>>
  {
    if rest.Err? then rest else Ok(updated + rest.value)
  }

  lemma UpdateItemsFrom(updated: seq<StopItem>, items: seq<StopItem>, n: nat, stop: nat, update: StopUpdate, zeroIsAbsent: bool)
    requires n < |items|
    ensures After(updated, UpdateItems(items[n..], stop, update, zeroIsAbsent))
         == var first := if items[n].stop == stop then UpdateItem(items[n], update, zeroIsAbsent) else Ok(items[n]);
            if first.Err? then Err(first.error)
            else After(updated + [first.value], UpdateItems(items[n + 1..], stop, update, zeroIsAbsent))
  {
    assert items[n..][1..] == items[n + 1..];
    var rest := UpdateItems(items[n + 1..], stop, update, zeroIsAbsent);
    if rest.Ok? {
      forall line ensures updated + ([line] + rest.value) == updated + [line] + rest.value { }
    }
  }

  function Updating(o: Operations, id: nat, stop: nat, update: StopUpdate, zeroIsAbsent: bool): Result<Operations>
  {
    if id >= |o.trips| || stop >= |o.trips[id].stops| then Err(NotFound)
    else
      var trip := o.trips[id];
      if trip.status in {Completed, Reconciled, TripCancelled} then Err(Conflict)
      else if forall i :: 0 <= i < |trip.stopItems| ==> trip.stopItems[i].stop != stop then Err(BadRequest)
      else
        var items := UpdateItems(trip.stopItems, stop, update, zeroIsAbsent);
        if items.Err? then Err(items.error)
        else Ok(o.(trips := o.trips[id := trip.(stopItems := items.value, stops := trip.stops[stop := update.status])]))
  }

  /** What an update can do to a line: quantities stay within the loaded quantity and its tolerance, and
      what was ordered and loaded is untouched. */
  lemma UpdateItemKeeps(item: StopItem, update: StopUpdate, zeroIsAbsent: bool)
    requires Requantified(item, update, zeroIsAbsent).Ok?
    ensures var after := UpdateItem(item, update, zeroIsAbsent).value;
      && Handled(after) <= LoadedQty(item, zeroIsAbsent) + 1
      && after.stop == item.stop && after.variant == item.variant
      && after.ordered == item.ordered && after.loaded == item.loaded
  {
  }

  lemma {:induction false} UpdateItemsKeeps(items: seq<StopItem>, stop: nat, update: StopUpdate, zeroIsAbsent: bool)
    requires UpdateItems(items, stop, update, zeroIsAbsent).Ok?
    ensures var after := UpdateItems(items, stop, update, zeroIsAbsent).value;
      && |after| == |items|
      && forall i :: 0 <= i < |items| ==>
           && after[i].stop == items[i].stop && after[i].variant == items[i].variant
           && after[i].ordered == items[i].ordered && after[i].loaded == items[i].loaded
           && (items[i].stop != stop ==> after[i] == items[i])
           && (after[i] == items[i] || Handled(after[i]) <= LoadedQty(items[i], zeroIsAbsent) + 1)
    decreases |items|
  {
    if items != [] {
      UpdateItemsKeeps(items[1..], stop, update, zeroIsAbsent);
      if items[0].stop == stop { UpdateItemKeeps(items[0], update, zeroIsAbsent); }
    }
  }

  /** A refused, failed or wholly delivered line, or a partial one reporting only what was delivered. */
  predicate LeavesNoneOpen(item: StopItem, update: StopUpdate, zeroIsAbsent: bool)
  {
    || update.status in {Refused, Failed}
    || (update.status == Delivered && item.variant !in update.items)
    || (update.status == Partial && item.variant in update.items
        && update.items[item.variant].returned.None? && update.items[item.variant].damaged.None?
        && update.items[item.variant].delivered <= LoadedQty(item, zeroIsAbsent))
  }

  /** Such a line accounts for exactly the loaded quantity. */
  lemma HandledExactly(item: StopItem, update: StopUpdate, zeroIsAbsent: bool)
    requires Requantified(item, update, zeroIsAbsent).Ok? && LeavesNoneOpen(item, update, zeroIsAbsent)
    ensures Handled(UpdateItem(item, update, zeroIsAbsent).value) == LoadedQty(item, zeroIsAbsent)
  {
  }

  /** An accepted update changes the lines of its stop one by one. */
  lemma {:induction false} UpdateItemsAt(items: seq<StopItem>, stop: nat, update: StopUpdate, zeroIsAbsent: bool, i: nat)
    requires UpdateItems(items, stop, update, zeroIsAbsent).Ok? && i < |items|
    ensures var after := UpdateItems(items, stop, update, zeroIsAbsent).value;
      && |after| == |items|
      && if items[i].stop == stop
         then UpdateItem(items[i], update, zeroIsAbsent) == Ok(after[i])
         else after[i] == items[i]
    decreases |items|
  {
    UpdateItemsKeeps(items, stop, update, zeroIsAbsent);
    if i > 0 { UpdateItemsAt(items[1..], stop, update, zeroIsAbsent, i - 1); }
  }

  /** What an accepted update records, status by status: all that was loaded delivered, refused or returned
      when nothing else is reported; what is reported otherwise, and the rest as returned on a partial one. */
  predicate Records(item: StopItem, after: StopItem, update: StopUpdate, zeroIsAbsent: bool)
  {
    var loaded := if zeroIsAbsent && item.loaded == 0 then item.ordered else item.loaded;
    && (update.status == Delivered && item.variant !in update.items ==>
          after.delivered == loaded && after.returned == after.damaged == after.refused == 0)
    && (update.status == Refused ==> after.refused == loaded && after.delivered == after.returned == after.damaged == 0)
    && (update.status == Failed ==> after.returned == loaded && after.delivered == after.damaged == after.refused == 0)
    && (update.status == Partial ==> item.variant in update.items)
    && (update.status in {Delivered, Partial} && item.variant in update.items ==>
          var reported := update.items[item.variant];
          && after.delivered == reported.delivered && after.refused == 0
          && (reported.returned.Some? ==> after.returned == reported.returned.value)
          && (reported.damaged.Some? ==> after.damaged == reported.damaged.value)
          && (reported.damaged.None? ==> after.damaged == 0)
          && (reported.returned.None? ==>
                after.returned == if update.status == Partial && reported.delivered < loaded then loaded - reported.delivered else 0))
    && (update.status == Pending ==>
          && after.delivered == item.delivered && after.returned == item.returned
          && after.damaged == item.damaged && after.refused == item.refused)
  }

  lemma UpdatedQuantities(item: StopItem, update: StopUpdate, zeroIsAbsent: bool)
    requires Requantified(item, update, zeroIsAbsent).Ok?
    ensures Records(item, UpdateItem(item, update, zeroIsAbsent).value, update, zeroIsAbsent)
  {
  }

  /** What a line's update may ask: a partial one reports the line, and what is reported is within the loaded
      quantity and a thousandth; without reported quantities everything goes, unless what was recorded before
      is already beyond. */
  predicate Accepts(item: StopItem, update: StopUpdate, zeroIsAbsent: bool)
  {
    var loaded := if zeroIsAbsent && item.loaded == 0 then item.ordered else item.loaded;
    var reports := item.variant in update.items;
    match update.status
    case Delivered => reports ==>
      var r := update.items[item.variant];
      r.delivered + (if r.returned.Some? then r.returned.value else 0)
        + (if r.damaged.Some? then r.damaged.value else 0) <= loaded + 1
    case Partial => reports &&
      var r := update.items[item.variant];
      r.delivered + (if r.returned.Some? then r.returned.value else if r.delivered < loaded then loaded - r.delivered else 0)
        + (if r.damaged.Some? then r.damaged.value else 0) <= loaded + 1
    case Pending => item.delivered + item.returned + item.damaged + item.refused <= loaded + 1
    case _ => true
  }

  lemma UpdateAcceptedExactly(item: StopItem, update: StopUpdate, zeroIsAbsent: bool)
    ensures UpdateItem(item, update, zeroIsAbsent).Ok? <==> Accepts(item, update, zeroIsAbsent)
  {
  }

  /** The recorded line total is the price of what was delivered and its tax, to within a paisa. */
  lemma UpdatedTotal(item: StopItem, update: StopUpdate, zeroIsAbsent: bool)
    requires Requantified(item, update, zeroIsAbsent).Ok?
    ensures TotalsUp(UpdateItem(item, update, zeroIsAbsent).value)
  {
    RepricedTotal(Requantified(item, update, zeroIsAbsent).value, EstimateTaxRate(item, zeroIsAbsent));
  }

  predicate TotalsUp(line: StopItem)
  {
    -0.01 <= line.lineTotal - (line.unitPrice * (line.delivered as real / 1000.0) + line.tax) <= 0.01
  }

  lemma RepricedTotal(q: StopItem, rate: real)
    ensures TotalsUp(Repriced(q, rate))
  {
    var amount, after := Amount(q.unitPrice, q.delivered), Repriced(q, rate);
    Round2Close(amount);
    Round2Close(Round2(amount) + after.tax);
    AddsUp(after, Round2(amount));
  }

  lemma AddsUp(line: StopItem, base: real)
    requires -0.005 <= base - Amount(line.unitPrice, line.delivered) <= 0.005
    requires -0.005 <= line.lineTotal - (base + line.tax) <= 0.005
    ensures TotalsUp(line)
  {
  }

  /** A stop update is accepted exactly for a stop with lines on a trip not closed, when each of its lines
      accepts it; then the stop alone takes the update's status, and the trip keeps its own. */
  lemma UpdatesExactly(o: Operations, id: nat, stop: nat, update: StopUpdate, zeroIsAbsent: bool)
    ensures var r := Updating(o, id, stop, update, zeroIsAbsent);
      && (r.Ok? <==>
            && id < |o.trips| && stop < |o.trips[id].stops|
            && o.trips[id].status !in {Completed, Reconciled, TripCancelled}
            && (exists i :: 0 <= i < |o.trips[id].stopItems| && o.trips[id].stopItems[i].stop == stop)
            && (forall i :: 0 <= i < |o.trips[id].stopItems| && o.trips[id].stopItems[i].stop == stop ==>
                  Accepts(o.trips[id].stopItems[i], update, zeroIsAbsent)))
      && (r.Ok? ==>
            && r.value.stock == o.stock && r.value.trips == o.trips[id := r.value.trips[id]]
            && r.value.trips[id].stops == o.trips[id].stops[stop := update.status]
            && LinesRecord(o.trips[id].stopItems, r.value.trips[id].stopItems, stop, update, zeroIsAbsent)
            && r.value.trips[id].(stops := o.trips[id].stops, stopItems := o.trips[id].stopItems) == o.trips[id])
  {
    if id < |o.trips| {
      UpdateItemsAccept(o.trips[id].stopItems, stop, update, zeroIsAbsent);
      if Updating(o, id, stop, update, zeroIsAbsent).Ok? { UpdateItemsRecord(o.trips[id].stopItems, stop, update, zeroIsAbsent); }
    }
  }

  /** Each line of the stop records the update and its total; the others stay. */
  ghost predicate LinesRecord(before: seq<StopItem>, after: seq<StopItem>, stop: nat, update: StopUpdate, zeroIsAbsent: bool)
  {
    && |after| == |before|
    && forall i :: 0 <= i < |before| ==>
         if before[i].stop == stop then Records(before[i], after[i], update, zeroIsAbsent) && TotalsUp(after[i])
         else after[i] == before[i]
  }

  lemma UpdateItemsRecord(items: seq<StopItem>, stop: nat, update: StopUpdate, zeroIsAbsent: bool)
    requires UpdateItems(items, stop, update, zeroIsAbsent).Ok?
    ensures LinesRecord(items, UpdateItems(items, stop, update, zeroIsAbsent).value, stop, update, zeroIsAbsent)
  {
    UpdateItemsKeeps(items, stop, update, zeroIsAbsent);
    forall i | 0 <= i < |items| && items[i].stop == stop
      ensures var after := UpdateItems(items, stop, update, zeroIsAbsent).value[i];
        Records(items[i], after, update, zeroIsAbsent) && TotalsUp(after)
    {
      UpdateItemsAt(items, stop, update, zeroIsAbsent, i);
      UpdatedQuantities(items[i], update, zeroIsAbsent);
      UpdatedTotal(items[i], update, zeroIsAbsent);
    }
  }

  lemma {:induction false} UpdateItemsAccept(items: seq<StopItem>, stop: nat, update: StopUpdate, zeroIsAbsent: bool)
    ensures UpdateItems(items, stop, update, zeroIsAbsent).Ok?
       <==> forall i :: 0 <= i < |items| && items[i].stop == stop ==> Accepts(items[i], update, zeroIsAbsent)
    decreases |items|
  {
    if items != [] {
      UpdateAcceptedExactly(items[0], update, zeroIsAbsent);
      UpdateItemsAccept(items[1..], stop, update, zeroIsAbsent);
      assert forall i :: 0 < i < |items| ==> items[i] == items[1..][i - 1];
      assert forall i :: 0 <= i < |items[1..]| ==> items[1..][i] == items[i + 1];
    }
  }

  lemma UpdatedLine(item: StopItem, update: StopUpdate, zeroIsAbsent: bool)
    ensures var r := UpdateItem(item, update, zeroIsAbsent);
      && (r.Ok? <==> Accepts(item, update, zeroIsAbsent))
      && (r.Ok? ==> Records(item, r.value, update, zeroIsAbsent) && TotalsUp(r.value))
      && (r.Ok? && LeavesNoneOpen(item, update, zeroIsAbsent) ==> Handled(r.value) == LoadedQty(item, zeroIsAbsent))
  {
    UpdateAcceptedExactly(item, update, zeroIsAbsent);
    if UpdateItem(item, update, zeroIsAbsent).Ok? {
      UpdatedQuantities(item, update, zeroIsAbsent);
      UpdatedTotal(item, update, zeroIsAbsent);
      if LeavesNoneOpen(item, update, zeroIsAbsent) { HandledExactly(item, update, zeroIsAbsent); }
    }
  }

  // ---------------------------------------------------------------- tax on a full delivery

  /** The line tax a stop update computes, under any rounding of money. */
  function RetaxedBy(round: real -> real, tax: real, base: real, deliveredAmount: real): real
  {
    TaxOn(round, deliveredAmount, if base <= 0.0 then 0.0 else round(tax / base * 100.0))
  }

  /** Delivering all that was loaded re-estimates the line tax to within the rounding of the rate, of the
      base and of the result. */
  lemma TaxReestimation(item: StopItem, update: StopUpdate, zeroIsAbsent: bool)
    requires UpdateItem(item, update, zeroIsAbsent).Ok?
    requires item.tax >= 0.0 && Amount(item.unitPrice, LoadedQty(item, zeroIsAbsent)) > 0.0
    requires UpdateItem(item, update, zeroIsAbsent).value.delivered == LoadedQty(item, zeroIsAbsent)
    ensures var base := Amount(item.unitPrice, LoadedQty(item, zeroIsAbsent));
      var bound := 0.005 + 0.005 * (item.tax / base) + 0.00005 * Round2(base);
      -bound <= UpdateItem(item, update, zeroIsAbsent).value.tax - item.tax <= bound
  {
    var base := Amount(item.unitPrice, LoadedQty(item, zeroIsAbsent));
    forall x: real ensures -0.005 <= Round2(x) - x <= 0.005 && (x >= 0.0 ==> Round2(x) >= 0.0) { Round2Close(x); }
    TaxBound(Round2, base, item.tax);
    UpdatedTax(item, update, zeroIsAbsent);
  }

  lemma UpdatedTax(item: StopItem, update: StopUpdate, zeroIsAbsent: bool)
    requires Requantified(item, update, zeroIsAbsent).Ok?
    ensures var after := UpdateItem(item, update, zeroIsAbsent).value;
      after.tax == RetaxedBy(Round2, item.tax, Amount(item.unitPrice, LoadedQty(item, zeroIsAbsent)),
                             Amount(item.unitPrice, after.delivered))
  {
    RepricedTax(Requantified(item, update, zeroIsAbsent).value, item, zeroIsAbsent);
  }

  lemma RepricedTax(q: StopItem, item: StopItem, zeroIsAbsent: bool)
    ensures Repriced(q, EstimateTaxRate(item, zeroIsAbsent)).tax
         == RetaxedBy(Round2, item.tax, Amount(item.unitPrice, LoadedQty(item, zeroIsAbsent)), Amount(q.unitPrice, q.delivered))
  {
  }

  lemma TaxBound(round: real -> real, base: real, tax: real)
    requires base > 0.0 && tax >= 0.0
    requires forall x :: -0.005 <= round(x) - x <= 0.005 && (x >= 0.0 ==> round(x) >= 0.0)
    ensures var bound := 0.005 + 0.005 * (tax / base) + 0.00005 * round(base);
      -bound <= RetaxedBy(round, tax, base, base) - tax <= bound
  {
    var share := tax / base;
    ShareOf(base, tax);
    var rate, result := round(share * 100.0), TaxOn(round, base, round(share * 100.0));
    TaxOnClose(round, base, rate);
    ErrorChain(base, tax, share, round(base), rate, result);
    assert RetaxedBy(round, tax, base, base) == result;
  }

  lemma TaxOnClose(round: real -> real, amount: real, rate: real)
    requires forall x :: -0.005 <= round(x) - x <= 0.005
    ensures -0.005 <= TaxOn(round, amount, rate) - round(amount) * rate / 100.0 <= 0.005
  {
  }

  lemma ShareOf(base: real, tax: real)
    requires base > 0.0 && tax >= 0.0
    ensures tax / base >= 0.0 && tax / base * base == tax
  {
  }

  /** How the three roundings add up. */
  lemma ErrorChain(base: real, tax: real, share: real, rounded: real, rate: real, result: real)
    requires share >= 0.0 && rounded >= 0.0 && share * base == tax
    requires -0.005 <= rounded - base <= 0.005
    requires -0.005 <= rate - share * 100.0 <= 0.005
    requires -0.005 <= result - rounded * rate / 100.0 <= 0.005
    ensures var bound := 0.005 + 0.005 * share + 0.00005 * rounded; -bound <= result - tax <= bound
  {
    var rateError, baseError := rounded * (rate - share * 100.0), share * (rounded - base);
    Product(rounded, rate - share * 100.0, 0.005);
    Product(share, rounded - base, 0.005);
    Expand(rounded, rate, share, base);
    assert rounded * rate / 100.0 - tax == rateError / 100.0 + baseError;
    AddErrors(result, rounded * rate, tax, rateError, baseError, share, rounded);
  }

  lemma AddErrors(result: real, product: real, tax: real, rateError: real, baseError: real, share: real, rounded: real)
    requires -0.005 <= result - product / 100.0 <= 0.005
    requires product / 100.0 - tax == rateError / 100.0 + baseError
    requires -(rounded * 0.005) <= rateError <= rounded * 0.005
    requires -(share * 0.005) <= baseError <= share * 0.005
    ensures var bound := 0.005 + 0.005 * share + 0.00005 * rounded; -bound <= result - tax <= bound
  {
  }

  lemma Product(a: real, d: real, e: real)
    requires a >= 0.0 && -e <= d <= e
    ensures -(a * e) <= a * d <= a * e
  {
    assert a * (e - d) >= 0.0;
    assert a * (e + d) >= 0.0;
  }

  lemma Expand(r: real, rate: real, s: real, b: real)
    ensures r * rate / 100.0 - s * b == r * (rate - s * 100.0) / 100.0 + s * (r - b)
  {
    assert r * (rate - s * 100.0) == r * rate - r * s * 100.0;
    assert s * (r - b) == s * r - s * b;
  }

  // ---------------------------------------------------------------- the service

  class DeliveryService {
    const dispatch: DispatchService

    constructor (dispatch: DispatchService)
      ensures this.dispatch == dispatch
    {
      this.dispatch := dispatch;
    }

    method UpdateStopStatus(id: nat, stop: nat, update: StopUpdate, zeroIsAbsent: bool) returns (r: Result<nat>)
      modifies dispatch
      ensures var spec := Updating(old(dispatch.Ops()), id, stop, update, zeroIsAbsent);
        && dispatch.Ops() == (if spec.Ok? then spec.value else old(dispatch.Ops()))
        && r == if spec.Ok? then Ok(id) else Err(spec.error)
      ensures r.Ok? <==>
        && id < |old(dispatch.trips)| && stop < |old(dispatch.trips)[id].stops|
        && old(dispatch.trips)[id].status !in {Completed, Reconciled, TripCancelled}
        && var lines := old(dispatch.trips)[id].stopItems;
           && (exists i :: 0 <= i < |lines| && lines[i].stop == stop)
           && (forall i :: 0 <= i < |lines| && lines[i].stop == stop ==> Accepts(lines[i], update, zeroIsAbsent))
      ensures r.Ok? ==> |dispatch.trips| == |old(dispatch.trips)|
      ensures r.Ok? ==>
        var was, now := old(dispatch.trips)[id], dispatch.trips[id];
        && now.stops == was.stops[stop := update.status]
        && LinesRecord(was.stopItems, now.stopItems, stop, update, zeroIsAbsent)
        && now.(stops := was.stops, stopItems := was.stopItems) == was
    {
      UpdatesExactly(dispatch.Ops(), id, stop, update, zeroIsAbsent);
      if id >= |dispatch.trips| { return Err(NotFound); }
      var trip := dispatch.trips[id];
      if stop >= |trip.stops| { return Err(NotFound); }
      if trip.status in {Completed, Reconciled, TripCancelled} { return Err(Conflict); }
      if forall i | 0 <= i < |trip.stopItems| :: trip.stopItems[i].stop != stop { return Err(BadRequest); }
      var items := UpdateLines(trip.stopItems, stop, update, zeroIsAbsent);
      if items.Err? { return Err(items.error); }
      dispatch.trips := dispatch.trips[id := trip.(stopItems := items.value, stops := trip.stops[stop := update.status])];
      return Ok(id);
    }

    method UpdateLines(lines: seq<StopItem>, stop: nat, update: StopUpdate, zeroIsAbsent: bool)
      returns (r: Result<seq<StopItem>>)
      ensures r == UpdateItems(lines, stop, update, zeroIsAbsent)
    {
      var updated: seq<StopItem> := [];
      ghost var spec := UpdateItems(lines, stop, update, zeroIsAbsent);
      assert lines[0..] == lines && (spec.Ok? ==> [] + spec.value == spec.value);
      for n := 0 to |lines|
        invariant spec == After(updated, UpdateItems(lines[n..], stop, update, zeroIsAbsent))
      {
        UpdateItemsFrom(updated, lines, n, stop, update, zeroIsAbsent);
        var line := lines[n];
        if line.stop == stop {
          var handled := UpdateLine(line, update, zeroIsAbsent);
          if handled.Err? { return Err(handled.error); }
          line := handled.value;
        }
        updated := updated + [line];
      }
      assert updated + [] == updated;
      return Ok(updated);
    }

    method UpdateLine(line: StopItem, update: StopUpdate, zeroIsAbsent: bool) returns (r: Result<StopItem>)
      ensures r == UpdateItem(line, update, zeroIsAbsent)
      ensures r.Ok? <==> Accepts(line, update, zeroIsAbsent)
      ensures r.Ok? ==> Records(line, r.value, update, zeroIsAbsent) && TotalsUp(r.value)
      ensures r.Ok? && LeavesNoneOpen(line, update, zeroIsAbsent) ==> Handled(r.value) == LoadedQty(line, zeroIsAbsent)
    {
      UpdatedLine(line, update, zeroIsAbsent);
      var reported := if line.variant in update.items then Some(update.items[line.variant]) else None;
      var loadedQty := LoadedQty(line, zeroIsAbsent);
      var deliveredQty, returnedQty, damagedQty, refusedQty := line.delivered, line.returned, line.damaged, line.refused;
      if update.status == Delivered {
        deliveredQty := if reported.Some? then reported.value.delivered else loadedQty;
        returnedQty := if reported.Some? then Optional(reported.value.returned, 0) else 0;
        damagedQty := if reported.Some? then Optional(reported.value.damaged, 0) else 0;
        refusedQty := 0;
      } else if update.status == Partial {
        if reported.None? { return Err(BadRequest); }
        deliveredQty := reported.value.delivered;
        returnedQty := Optional(reported.value.returned, Max(loadedQty - deliveredQty, 0));
        damagedQty := Optional(reported.value.damaged, 0);
        refusedQty := 0;
      } else if update.status == Refused {
        deliveredQty, returnedQty, damagedQty, refusedQty := 0, 0, 0, loadedQty;
      } else if update.status == Failed {
        deliveredQty, returnedQty, damagedQty, refusedQty := 0, loadedQty, 0, 0;
      }
      if deliveredQty + returnedQty + damagedQty + refusedQty > loadedQty + 1 { return Err(BadRequest); }
      var handled := line.(delivered := deliveredQty, returned := returnedQty, damaged := damagedQty, refused := refusedQty);
      return Ok(Repriced(handled, EstimateTaxRate(line, zeroIsAbsent)));
    }
  }
}
