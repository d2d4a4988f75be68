/** When a purchase order's stored receipt status is the one its posted receipts justify. */
module GoodsReceiptsHistory {
  import opened Wrappers
  import opened Sums
  import opened Stock
  import opened GoodsReceipts

  // ---------------------------------------------------------------- when a stored status is current

  /** An order's stored status is the one posted receipts justify. */
  predicate IsCurrent(d: Documents, p: nat)
    requires p < |d.orders|
  {
    d.orders[p].status == ReceiptStatus(d.receipts, d.orders[p].lines)
  }

  predicate AllCurrent(d: Documents)
  {
    forall p :: 0 <= p < |d.orders| ==> IsCurrent(d, p)
  }

  predicate AcceptsNone(items: seq<GrnItem>, lines: seq<PoLine>)
  {
    forall i :: 0 <= i < |lines| ==> Sum(items, AcceptedOn(lines[i].id)) == 0
  }

  predicate LeavesShort(receipts: seq<Receipt>, items: seq<GrnItem>, lines: seq<PoLine>)
  {
    exists i :: 0 <= i < |lines| && AcceptedFor(receipts, lines[i].id) + Sum(items, AcceptedOn(lines[i].id)) < lines[i].ordered
  }

  /** Whether posting a receipt leaves an order's status current, read off before the call: it is the
      receipt's own order, or one already received, or an untouched one the receipt brings nothing for, or a
      partial one it leaves short. */
  predicate Tells(d: Documents, receipt: Receipt, p: nat)
    requires p < |d.orders|
  {
    || receipt.po == Some(p)
    || match d.orders[p].status
       case PoReceived => true
       case PoPartial => LeavesShort(d.receipts, receipt.items, d.orders[p].lines)
       case PoApproved => AcceptsNone(receipt.items, d.orders[p].lines)
  }

  lemma PostedAddsAccepted(d: Documents, id: nat, line: PoLineId)
    requires SoundReceipts(d.receipts) && Post(d, id).Ok?
    ensures AcceptedFor(Post(d, id).value.receipts, line)
         == AcceptedFor(d.receipts, line) + Sum(d.receipts[id].items, AcceptedOn(line))
    ensures Sum(d.receipts[id].items, AcceptedOn(line)) >= 0 && AcceptedFor(d.receipts, line) >= 0
  {
    SumUpdate(d.receipts, id, d.receipts[id].(status := Posted), PostedAccepted(line));
    SumNonNegative(d.receipts[id].items, AcceptedOn(line));
    AcceptedNonNegative(d.receipts, line);
  }

  lemma AcceptedNonNegative(receipts: seq<Receipt>, line: PoLineId)
    requires SoundReceipts(receipts)
    ensures AcceptedFor(receipts, line) >= 0
  {
    forall i | 0 <= i < |receipts| ensures PostedAccepted(line)(receipts[i]) >= 0 {
      SumNonNegative(receipts[i].items, AcceptedOn(line));
    }
    SumNonNegative(receipts, PostedAccepted(line));
  }

  /** Adding what a receipt accepted: when the status the sums justify stays the same. */
  lemma StatusStays(before: seq<Receipt>, after: seq<Receipt>, items: seq<GrnItem>, lines: seq<PoLine>)
    requires forall line: nat ::
      && AcceptedFor(before, line) >= 0 && Sum(items, AcceptedOn(line)) >= 0
      && AcceptedFor(after, line) == AcceptedFor(before, line) + Sum(items, AcceptedOn(line))
    ensures var status := ReceiptStatus(before, lines);
      (ReceiptStatus(after, lines) == status)
      <==> match status
           case PoReceived => true
           case PoPartial => LeavesShort(before, items, lines)
           case PoApproved => AcceptsNone(items, lines)
  {
    if AnyReceived(before, lines) {
      var i :| 0 <= i < |lines| && AcceptedFor(before, lines[i].id) > 0;
      assert AcceptedFor(after, lines[i].id) > 0;
    } else if !AcceptsNone(items, lines) {
      var i :| 0 <= i < |lines| && Sum(items, AcceptedOn(lines[i].id)) != 0;
      assert AcceptedFor(after, lines[i].id) > 0;
    } else {
      assert forall i :: 0 <= i < |lines| ==> AcceptedFor(after, lines[i].id) == AcceptedFor(before, lines[i].id);
    }
    assert FullyReceived(after, lines) <==> !LeavesShort(before, items, lines);
  }

  /** Posting recomputes the receipt's own order only: any other order's stored status is current afterwards
      exactly when it was before and the receipt leaves it so. */
  lemma PostKeepsCurrentExactly(d: Documents, id: nat, p: nat)
    requires SoundDocuments(d) && Post(d, id).Ok? && p < |d.orders|
    ensures IsCurrent(Post(d, id).value, p)
       <==> d.receipts[id].po == Some(p) || (IsCurrent(d, p) && Tells(d, d.receipts[id], p))
  {
    var after, receipt, lines := Post(d, id).value, d.receipts[id], d.orders[p].lines;
    forall line: nat
      ensures AcceptedFor(d.receipts, line) >= 0 && Sum(receipt.items, AcceptedOn(line)) >= 0
      ensures AcceptedFor(after.receipts, line) == AcceptedFor(d.receipts, line) + Sum(receipt.items, AcceptedOn(line))
    {
      PostedAddsAccepted(d, id, line);
    }
    StatusStays(d.receipts, after.receipts, receipt.items, lines);
    StatusNeverFalls(d.receipts, after.receipts, lines);
  }

  /** The step, if it posts a receipt, leaves every order's status current. */
  predicate StepTells(d: Documents, step: Step)
  {
    step.PostGrn? && Post(d, step.id).Ok? ==> forall p :: 0 <= p < |d.orders| ==> Tells(d, d.receipts[step.id], p)
  }

  predicate NeverMisses(d: Documents, products: map<VariantId, Product>, steps: seq<Step>)
    decreases |steps|
  {
    steps == [] || (StepTells(d, steps[0]) && NeverMisses(Apply(d, products, steps[0]), products, steps[1..]))
  }

  predicate AlwaysCurrent(d: Documents, products: map<VariantId, Product>, steps: seq<Step>)
    decreases |steps|
  {
    AllCurrent(d) && (steps == [] || AlwaysCurrent(Apply(d, products, steps[0]), products, steps[1..]))
  }

  lemma StepKeepsCurrent(d: Documents, products: map<VariantId, Product>, step: Step)
    requires SoundDocuments(d) && AllCurrent(d)
    ensures AllCurrent(Apply(d, products, step)) <==> StepTells(d, step)
  {
    var after := Apply(d, products, step);
    if step.PostGrn? && Post(d, step.id).Ok? {
      forall p | 0 <= p < |d.orders| ensures IsCurrent(after, p) <==> Tells(d, d.receipts[step.id], p) {
        PostKeepsCurrentExactly(d, step.id, p);
      }
    } else {
      forall p | 0 <= p < |d.orders| ensures IsCurrent(after, p) {
        assert IsCurrent(d, p);
        forall line: nat ensures AcceptedFor(after.receipts, line) == AcceptedFor(d.receipts, line) {
          OtherStepAccepted(d, products, step, line);
        }
        SameStatus(d.receipts, after.receipts, d.orders[p].lines);
      }
    }
  }

  lemma SameStatus(before: seq<Receipt>, after: seq<Receipt>, lines: seq<PoLine>)
    requires forall line: nat :: AcceptedFor(before, line) == AcceptedFor(after, line)
    ensures ReceiptStatus(before, lines) == ReceiptStatus(after, lines)
  {
    StatusNeverFalls(before, after, lines);
    StatusNeverFalls(after, before, lines);
  }

  /** Only posting changes what posted receipts accepted. */
  lemma OtherStepAccepted(d: Documents, products: map<VariantId, Product>, step: Step, line: PoLineId)
    requires !(step.PostGrn? && Post(d, step.id).Ok?)
    ensures AcceptedFor(Apply(d, products, step).receipts, line) == AcceptedFor(d.receipts, line)
  {
    var after := Apply(d, products, step);
    match step
    case CreateGrn(_, _, _, _, _) =>
      if |after.receipts| != |d.receipts| { SumAppend(d.receipts, after.receipts[|d.receipts|], PostedAccepted(line)); }
    case UpdateGrn(id, _, _, _) =>
      if id < |d.receipts| { SumUpdate(d.receipts, id, after.receipts[id], PostedAccepted(line)); }
    case ApproveGrn(id) =>
      if id < |d.receipts| { SumUpdate(d.receipts, id, after.receipts[id], PostedAccepted(line)); }
    case PostGrn(_) =>
  }

  /** Over any run, every stored status is current at every moment exactly when each posted receipt, as it
      stands just before it is posted, leaves every other order's status right. */
  lemma {:induction false} AlwaysCurrentExactly(d: Documents, products: map<VariantId, Product>, steps: seq<Step>)
    requires SoundDocuments(d) && AllCurrent(d)
    ensures AlwaysCurrent(d, products, steps) <==> NeverMisses(d, products, steps)
    decreases |steps|
  {
    if steps != [] {
      StepKeepsCurrent(d, products, steps[0]);
      if StepTells(d, steps[0]) {
        StepKeepsDocuments(d, products, steps[0]);
        AlwaysCurrentExactly(Apply(d, products, steps[0]), products, steps[1..]);
      }
    }
  }

  // ---------------------------------------------------------------- receipts of one order

  /** Every purchase-order line a receipt names is on its own order. */
  predicate OwnLines(d: Documents, r: Receipt)
  {
    forall j :: 0 <= j < |r.items| && r.items[j].poLine.Some? ==>
      LinesOf(d, r.po).Some? && LineById(LinesOf(d, r.po).value, r.items[j].poLine.value).Some?
  }

  /** No line belongs to two orders. */
  predicate LinesApart(orders: seq<PurchaseOrder>)
  {
    forall p, q, i, j :: 0 <= p < |orders| && 0 <= q < |orders| && p != q && 0 <= i < |orders[p].lines| && 0 <= j < |orders[q].lines| ==>
      orders[p].lines[i].id != orders[q].lines[j].id
  }

  /** A request that names order lines only under their order, and moves no draft without recounting it. */
  predicate Tidy(d: Documents, step: Step)
  {
    match step
    case CreateGrn(_, _, po, _, raws) => po.None? ==> NamesNone(raws)
    case UpdateGrn(id, po, _, raws) =>
      if raws == [] then id < |d.receipts| ==> d.receipts[id].po == po else po.None? ==> NamesNone(raws)
    case _ => true
  }

  predicate NamesNone(raws: seq<RawItem>)
  {
    forall i :: 0 <= i < |raws| ==> raws[i].poLine.None?
  }

  predicate TidyRun(d: Documents, products: map<VariantId, Product>, steps: seq<Step>)
    decreases |steps|
  {
    steps == [] || (Tidy(d, steps[0]) && TidyRun(Apply(d, products, steps[0]), products, steps[1..]))
  }

  predicate AllOwnLines(d: Documents)
  {
    forall i :: 0 <= i < |d.receipts| ==> OwnLines(d, d.receipts[i])
  }

  lemma OwnLinesTell(d: Documents, id: nat, p: nat)
    requires SoundDocuments(d) && LinesApart(d.orders) && id < |d.receipts| && p < |d.orders|
    requires OwnLines(d, d.receipts[id]) && IsCurrent(d, p)
    ensures Tells(d, d.receipts[id], p)
  {
    var receipt, lines := d.receipts[id], d.orders[p].lines;
    if receipt.po != Some(p) {
      forall i | 0 <= i < |lines| ensures Sum(receipt.items, AcceptedOn(lines[i].id)) == 0 {
        forall j | 0 <= j < |receipt.items| ensures receipt.items[j].poLine != Some(lines[i].id) {
          if receipt.items[j].poLine == Some(lines[i].id) {
            var n := LineByIdIndex(LinesOf(d, receipt.po).value, lines[i].id);
          }
        }
        SumZero(receipt.items, AcceptedOn(lines[i].id));
      }
      if d.orders[p].status == PoPartial {
        var i :| 0 <= i < |lines| && AcceptedFor(d.receipts, lines[i].id) < lines[i].ordered;
        assert LeavesShort(d.receipts, receipt.items, lines);
      }
    }
  }

  lemma {:induction false} PreparedOwnLines(products: map<VariantId, Product>, lines: Option<seq<PoLine>>, raws: seq<RawItem>)
    requires PrepareItems(products, lines, raws).Ok? && (lines.None? ==> NamesNone(raws))
    ensures var items := PrepareItems(products, lines, raws).value;
      forall j :: 0 <= j < |items| && items[j].poLine.Some? ==> lines.Some? && LineById(lines.value, items[j].poLine.value).Some?
  {
    if raws != [] {
      PreparedOwnLines(products, lines, raws[..|raws| - 1]);
      if lines.Some? { PreparedOwnLine(products, lines.value, raws[|raws| - 1]); }
    }
  }

  lemma PreparedOwnLine(products: map<VariantId, Product>, lines: seq<PoLine>, raw: RawItem)
    requires PrepareItem(products, Some(lines), raw).Ok?
    ensures var item := PrepareItem(products, Some(lines), raw).value;
      item.poLine.Some? && LineById(lines, item.poLine.value).Some?
  {
    if raw.poLine.None? {
      var n := LineByVariantIndex(lines, raw.variant);
      LineByIdFinds(lines, n);
    } else {
      var n := LineByIdIndex(lines, raw.poLine.value);
      LineByIdIs(lines, raw.poLine.value);
    }
  }

  lemma {:induction false} LineByVariantIndex(lines: seq<PoLine>, variant: VariantId) returns (i: nat)
    requires LineByVariant(lines, variant).Some?
    ensures i < |lines| && lines[i] == LineByVariant(lines, variant).value
  {
    i := |lines| - 1;
    if lines[i].variant != variant { i := LineByVariantIndex(lines[..i], variant); }
  }

  lemma {:induction false} LineByIdIs(lines: seq<PoLine>, id: PoLineId)
    requires LineById(lines, id).Some?
    ensures LineById(lines, id).value.id == id
  {
    if lines[|lines| - 1].id != id { LineByIdIs(lines[..|lines| - 1], id); }
  }

  lemma StepKeepsOwnLines(d: Documents, products: map<VariantId, Product>, step: Step)
    requires AllOwnLines(d) && Tidy(d, step)
    ensures AllOwnLines(Apply(d, products, step))
  {
    var after := Apply(d, products, step);
    if step.CreateGrn? && PrepareItems(products, LinesOf(d, step.po), step.raws).Ok? && (step.po.None? || LinesOf(d, step.po).Some?) {
      PreparedOwnLines(products, LinesOf(d, step.po), step.raws);
    } else if step.UpdateGrn? && PrepareItems(products, LinesOf(d, step.po), step.raws).Ok? && (step.po.None? || LinesOf(d, step.po).Some?) {
      PreparedOwnLines(products, LinesOf(d, step.po), step.raws);
    }
    forall i | 0 <= i < |after.receipts| ensures OwnLines(after, after.receipts[i]) {
      forall po ensures LinesOf(after, po) == LinesOf(d, po) { }
      if i < |d.receipts| { assert OwnLines(d, d.receipts[i]); }
    }
  }

  /** If requests name order lines only under their order and move no draft without recounting it, every
      stored status is current throughout. */
  lemma {:induction false} TidyRunsAreCurrent(d: Documents, products: map<VariantId, Product>, steps: seq<Step>)
    requires SoundDocuments(d) && AllCurrent(d) && AllOwnLines(d) && LinesApart(d.orders) && TidyRun(d, products, steps)
    ensures AlwaysCurrent(d, products, steps)
    decreases |steps|
  {
    if steps != [] {
      var step := steps[0];
      if step.PostGrn? && Post(d, step.id).Ok? {
        forall p | 0 <= p < |d.orders| ensures Tells(d, d.receipts[step.id], p) { OwnLinesTell(d, step.id, p); }
      }
      StepKeepsCurrent(d, products, step);
      StepKeepsDocuments(d, products, step);
      StepKeepsOwnLines(d, products, step);
      SameLinesApart(d.orders, Apply(d, products, step).orders);
      TidyRunsAreCurrent(Apply(d, products, step), products, steps[1..]);
    }
  }

  lemma SameLinesApart(before: seq<PurchaseOrder>, after: seq<PurchaseOrder>)
    requires LinesApart(before) && |after| == |before| && forall p :: 0 <= p < |before| ==> after[p].lines == before[p].lines
    ensures LinesApart(after)
  {
  }

  // ---------------------------------------------------------------- where it fails

  const PLAIN := map[0 := Product(false, false)]
  const FIVE := PurchaseOrder([PoLine(0, 0, 5)], PoApproved)
  const UNORDERED := RawItem(None, 0, 5, 5, 5, 0, None, None)

  /** One line's receipt through approval and posting. */
  function Received(d: Documents, po: Option<nat>, raw: RawItem): Documents
  {
    Run(d, PLAIN, [CreateGrn("K", "N", po, 0, [raw]), ApproveGrn(0), PostGrn(0)])
  }

  lemma PrepareOne(products: map<VariantId, Product>, raw: RawItem)
    requires PrepareItem(products, None, raw).Ok?
    ensures PrepareItems(products, None, [raw]) == Ok([PrepareItem(products, None, raw).value])
  {
    var item := PrepareItem(products, None, raw).value;
    assert [raw][..0] == [] && PrepareItems(products, None, []) == Ok([]);
    assert [] + [item] == [item];
  }

  lemma RunThree(d: Documents, products: map<VariantId, Product>, a: Step, b: Step, c: Step)
    ensures Run(d, products, [a, b, c]) == Apply(Apply(Apply(d, products, a), products, b), products, c)
  {
    assert [a, b, c][1..] == [b, c] && [b, c][1..] == [c] && [c][1..] == [];
    var one := Apply(d, products, a);
    var two := Apply(one, products, b);
    assert Run(two, products, [c]) == Apply(two, products, c);
    assert Run(one, products, [b, c]) == Run(two, products, [c]);
  }

  /** A receipt without an order can name an order's line, and then that order is never recomputed: it is
      covered and still stands approved. */
  lemma UnsyncedOrder()
    ensures var after := Received(Documents([], [FIVE]), None, UNORDERED.(poLine := Some(0)));
      && |after.orders| == 1
      && after.orders[0].status == PoApproved
      && ReceiptStatus(after.receipts, after.orders[0].lines) == PoReceived
  {
    var start, raw := Documents([], [FIVE]), UNORDERED.(poLine := Some(0));
    RunThree(start, PLAIN, CreateGrn("K", "N", None, 0, [raw]), ApproveGrn(0), PostGrn(0));
    var item := GrnItem(Some(0), 0, 5, 5, 5, 0, 0, 0, None, None);
    var receipt := DraftUnordered([FIVE], raw, item);
    PostUnordered([FIVE], receipt);
    FiveAccepted(receipt.(status := Posted), item);
  }

  lemma DraftUnordered(orders: seq<PurchaseOrder>, raw: RawItem, item: GrnItem) returns (receipt: Receipt)
    requires PrepareItem(PLAIN, None, raw) == Ok(item)
    ensures receipt == Receipt(0, "K", "N", None, 0, Draft, [item])
    ensures Apply(Documents([], orders), PLAIN, CreateGrn("K", "N", None, 0, [raw])) == Documents([receipt], orders)
  {
    PrepareOne(PLAIN, raw);
    receipt := Receipt(0, "K", "N", None, 0, Draft, [item]);
  }

  lemma PostUnordered(orders: seq<PurchaseOrder>, receipt: Receipt)
    requires receipt.status == Draft && receipt.po.None? && receipt.items != []
    ensures Apply(Apply(Documents([receipt], orders), PLAIN, ApproveGrn(0)), PLAIN, PostGrn(0))
         == Documents([receipt.(status := Posted)], orders)
  {
    assert Apply(Documents([receipt], orders), PLAIN, ApproveGrn(0)) == Documents([receipt.(status := Approved)], orders);
  }

  lemma FiveAccepted(receipt: Receipt, item: GrnItem)
    requires receipt.status == Posted && receipt.items == [item] && item.poLine == Some(0) && item.accepted == 5
    ensures ReceiptStatus([receipt], FIVE.lines) == PoReceived
  {
    assert Sum([item], AcceptedOn(0)) == 5 + Sum([item][1..], AcceptedOn(0));
    assert Sum([receipt], PostedAccepted(0)) == 5 + Sum([receipt][1..], PostedAccepted(0));
    assert AcceptedFor([receipt], 0) == 5;
  }

  /** An order with nothing accepted on it counts as received exactly when it orders nothing, as one
      without lines does. */
  lemma ReceivedForNothing(receipts: seq<Receipt>, lines: seq<PoLine>)
    requires SoundReceipts(receipts) && !AnyReceived(receipts, lines)
    ensures ReceiptStatus(receipts, lines) == PoReceived <==> forall i :: 0 <= i < |lines| ==> lines[i].ordered <= 0
  {
    forall i | 0 <= i < |lines| ensures AcceptedFor(receipts, lines[i].id) == 0 {
      AcceptedNonNegative(receipts, lines[i].id);
    }
  }

  /** The first order counts as received with nothing accepted on it. */
  predicate FirstReceivedForNothing(d: Documents)
  {
    |d.orders| > 0 && d.orders[0].status == PoReceived && !AnyReceived(d.receipts, d.orders[0].lines)
  }

  /** As it happens: a draft is moved to an order without lines, and its posting marks that order received. */
  lemma LinelessOrderReceived()
    ensures exists steps: seq<Step> ::
      FirstReceivedForNothing(Run(Documents([], [PurchaseOrder([], PoApproved)]), PLAIN, steps))
  {
    var empty := PurchaseOrder([], PoApproved);
    var start, create := Documents([], [empty]), CreateGrn("K", "N", None, 0, [UNORDERED]);
    var later := [UpdateGrn(0, Some(0), 0, []), ApproveGrn(0), PostGrn(0)];
    var receipt := DraftUnordered([empty], UNORDERED, GrnItem(None, 0, 5, 5, 5, 0, 0, 0, None, None));
    var drafted := Apply(start, PLAIN, create);
    RunThree(drafted, PLAIN, UpdateGrn(0, Some(0), 0, []), ApproveGrn(0), PostGrn(0));
    assert ([create] + later)[1..] == later;
    assert Run(start, PLAIN, [create] + later) == Run(drafted, PLAIN, later);
    assert FirstReceivedForNothing(Run(drafted, PLAIN, later));
  }
}
