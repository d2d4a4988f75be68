/** Goods receipts: preparing lines, posting them to stock, and the purchase-order status
    (goods-receipts.service.ts). */
module GoodsReceipts {
  import opened Wrappers
  import opened Sums
  import opened Stock
  import opened Tally
  import opened Database

  type PoLineId = nat

  datatype Product = Product(batchTracked: bool, expiryTracked: bool)

  datatype RawItem = RawItem(
    poLine: Option<PoLineId>, variant: VariantId, ordered: int, received: int, accepted: int, rejected: int,
    batchNo: Option<string>, expiry: Option<int>)

  datatype GrnItem = GrnItem(
    poLine: Option<PoLineId>, variant: VariantId, ordered: int, received: int, accepted: int, rejected: int,
    excess: int, short: int, batchNo: Option<string>, expiry: Option<int>)

  datatype GrnStatus = Draft | Approved | Posted | Cancelled

  datatype Receipt = Receipt(
    id: nat, key: string, number: string, po: Option<nat>, warehouse: WarehouseId, status: GrnStatus, items: seq<GrnItem>)

  datatype PoLine = PoLine(id: PoLineId, variant: VariantId, ordered: int)

  datatype PoStatus = PoApproved | PoPartial | PoReceived

  datatype PurchaseOrder = PurchaseOrder(lines: seq<PoLine>, status: PoStatus)

  // ---------------------------------------------------------------- preparing lines

  function LineById(lines: seq<PoLine>, id: PoLineId): Option<PoLine>
  {
    if lines == [] then None
    else if lines[|lines| - 1].id == id then Some(lines[|lines| - 1])
    else LineById(lines[..|lines| - 1], id)
  }

  function LineByVariant(lines: seq<PoLine>, variant: VariantId): Option<PoLine>
  {
    if lines == [] then None
    else if lines[|lines| - 1].variant == variant then Some(lines[|lines| - 1])
    else LineByVariant(lines[..|lines| - 1], variant)
  }

  /** One line of a receipt; `lines` are the purchase order's, or None without an order. */
  function PrepareItem(products: map<VariantId, Product>, lines: Option<seq<PoLine>>, raw: RawItem): (r: Result<GrnItem>)
    ensures r.Ok? ==> SoundItem(r.value) && r.value.accepted == raw.accepted && r.value.variant == raw.variant
  {
    var related :=
      if lines.None? then None
      else if raw.poLine.Some? then LineById(lines.value, raw.poLine.value)
      else LineByVariant(lines.value, raw.variant);
    if raw.variant !in products then Err(BadRequest)
    else if lines.Some? && related.None? then Err(BadRequest)
    else if raw.received <= 0 then Err(BadRequest)
    else if raw.accepted < 0 || raw.rejected < 0 then Err(BadRequest)
    else if raw.accepted + raw.rejected != raw.received then Err(BadRequest)
    else if products[raw.variant].batchTracked && (raw.batchNo.None? || raw.batchNo.value == "") then Err(BadRequest)
    else if products[raw.variant].expiryTracked && raw.expiry.None? then Err(BadRequest)
    else
      var ordered := if related.Some? then related.value.ordered else raw.ordered;
      Ok(GrnItem(if related.Some? then Some(related.value.id) else raw.poLine, raw.variant, ordered,
                 raw.received, raw.accepted, raw.rejected,
                 Max(raw.received - ordered, 0), Max(ordered - raw.received, 0), raw.batchNo, raw.expiry))
  }

  /** What every stored receipt line satisfies. */
  predicate SoundItem(item: GrnItem)
  {
    && item.accepted >= 0 && item.rejected >= 0 && item.received > 0
    && item.accepted + item.rejected == item.received
    && item.excess >= 0 && item.short >= 0 && (item.excess == 0 || item.short == 0)
    && item.received + item.short == item.ordered + item.excess
  }

  function PrepareItems(products: map<VariantId, Product>, lines: Option<seq<PoLine>>, raws: seq<RawItem>): Result<seq<GrnItem>>
  {
    if raws == [] then Ok([])
    else
      var first := PrepareItems(products, lines, raws[..|raws| - 1]);
      var last := PrepareItem(products, lines, raws[|raws| - 1]);
      if first.Err? || last.Err? then Err(BadRequest) else Ok(first.value + [last.value])
  }

  /** The order's line a receipt line stands for: the one it names, or else one of its variant. */
  predicate Names(raw: RawItem, line: PoLine)
  {
    if raw.poLine.Some? then line.id == raw.poLine.value else line.variant == raw.variant
  }

  /** A line is accepted exactly when its product is known, an order that is given has a line for it, its
      quantities add up, and what the product tracks is there; it takes the ordered quantity from the last
      such line of the order, and the rest as reported. */
  lemma PreparesExactly(products: map<VariantId, Product>, lines: Option<seq<PoLine>>, raw: RawItem)
    ensures var r := PrepareItem(products, lines, raw);
      && (r.Ok? <==>
            && raw.variant in products
            && (lines.Some? ==> exists i :: 0 <= i < |lines.value| && Names(raw, lines.value[i]))
            && raw.received > 0 && raw.accepted >= 0 && raw.rejected >= 0 && raw.accepted + raw.rejected == raw.received
            && (products[raw.variant].batchTracked ==> raw.batchNo.Some? && raw.batchNo.value != "")
            && (products[raw.variant].expiryTracked ==> raw.expiry.Some?))
      && (r.Ok? ==>
            && r.value.variant == raw.variant && r.value.received == raw.received && r.value.accepted == raw.accepted
            && r.value.rejected == raw.rejected && r.value.batchNo == raw.batchNo && r.value.expiry == raw.expiry
            && (lines.None? ==> r.value.poLine == raw.poLine && r.value.ordered == raw.ordered)
            && (lines.Some? ==> exists i :: 0 <= i < |lines.value| && Names(raw, lines.value[i])
                                  && (forall k :: i < k < |lines.value| ==> !Names(raw, lines.value[k]))
                                  && r.value.poLine == Some(lines.value[i].id) && r.value.ordered == lines.value[i].ordered))
  {
    if lines.Some? {
      if raw.poLine.Some? { LineByIdExactly(lines.value, raw.poLine.value); } else { LineByVariantExactly(lines.value, raw.variant); }
    }
  }

  lemma {:induction false} LineByIdExactly(lines: seq<PoLine>, id: PoLineId)
    ensures var r := LineById(lines, id);
      && (r.Some? <==> exists i :: 0 <= i < |lines| && lines[i].id == id)
      && (r.Some? ==> exists i :: 0 <= i < |lines| && lines[i].id == id && lines[i] == r.value
                           && forall k :: i < k < |lines| ==> lines[k].id != id)
  {
    if lines != [] && lines[|lines| - 1].id != id {
      var init := lines[..|lines| - 1];
      LineByIdExactly(init, id);
      assert forall i :: 0 <= i < |init| ==> init[i] == lines[i];
      if r :| 0 <= r < |init| && init[r].id == id && (forall k :: r < k < |init| ==> !(init[k].id == id))
      {
        assert lines[r] == init[r] && forall k :: r < k < |lines| ==> !(lines[k].id == id);
      }
    }
  }

  lemma {:induction false} LineByVariantExactly(lines: seq<PoLine>, variant: VariantId)
    ensures var r := LineByVariant(lines, variant);
      && (r.Some? <==> exists i :: 0 <= i < |lines| && lines[i].variant == variant)
      && (r.Some? ==> exists i :: 0 <= i < |lines| && lines[i].variant == variant && lines[i] == r.value
                           && forall k :: i < k < |lines| ==> lines[k].variant != variant)
  {
    if lines != [] && lines[|lines| - 1].variant != variant {
      var init := lines[..|lines| - 1];
      LineByVariantExactly(init, variant);
      assert forall i :: 0 <= i < |init| ==> init[i] == lines[i];
      if r :| 0 <= r < |init| && init[r].variant == variant && (forall k :: r < k < |init| ==> !(init[k].variant == variant))
      {
        assert lines[r] == init[r] && forall k :: r < k < |lines| ==> !(lines[k].variant == variant);
      }
    }
  }

  /** Lines are prepared one by one, all or none. */
  lemma {:induction false} PreparesAll(products: map<VariantId, Product>, lines: Option<seq<PoLine>>, raws: seq<RawItem>)
    ensures var r := PrepareItems(products, lines, raws);
      && (r.Ok? <==> forall i :: 0 <= i < |raws| ==> PrepareItem(products, lines, raws[i]).Ok?)
      && (r.Ok? ==> |r.value| == |raws| && forall i :: 0 <= i < |raws| ==> PrepareItem(products, lines, raws[i]) == Ok(r.value[i]))
  {
    if raws != [] { PreparesAll(products, lines, raws[..|raws| - 1]); }
  }

  // ---------------------------------------------------------------- posting to stock

  function MatchingBatch(batches: seq<Batch>, warehouse: WarehouseId, variant: VariantId, batchNo: string): (r: Option<BatchId>)
    ensures r.Some? ==> r.value < |batches| && Matches(batches[r.value], warehouse, variant) && batches[r.value].batchNo == batchNo
    ensures r.None? ==> forall id :: 0 <= id < |batches| && Matches(batches[id], warehouse, variant) ==> batches[id].batchNo != batchNo
  {
    if batches == [] then None
    else
      var earlier := MatchingBatch(batches[..|batches| - 1], warehouse, variant, batchNo);
      var last := batches[|batches| - 1];
      if earlier.Some? then earlier
      else if Matches(last, warehouse, variant) && last.batchNo == batchNo then Some(|batches| - 1)
      else None
  }

  function GrnCause(receipt: Receipt, item: GrnItem): Cause
  {
    Cause(GrnIn, receipt.id, receipt.warehouse, item.variant)
  }

  /** A line without a batch number is looked up under the receipt's key but created under its number. */
  function PostItem(s: Tables, receipt: Receipt, item: GrnItem): Tables
  {
    if item.accepted <= 0 then s
    else
      var wanted := if item.batchNo.Some? then item.batchNo.value else "GRN-" + receipt.key;
      var batch := MatchingBatch(s.batches, receipt.warehouse, item.variant, wanted);
      if batch.Some? then Receive(s, batch.value, item.accepted, item.expiry, GrnCause(receipt, item))
      else Open(s, if item.batchNo.Some? then item.batchNo.value else "GRN-" + receipt.number,
                item.expiry, item.accepted, GrnCause(receipt, item))
  }

  function PostItems(s: Tables, receipt: Receipt, items: seq<GrnItem>): Tables
  {
    if items == [] then s
    else PostItem(PostItems(s, receipt, items[..|items| - 1]), receipt, items[|items| - 1])
  }

  lemma {:induction false} PostItemsKeepsBooks(s: Tables, receipt: Receipt, items: seq<GrnItem>)
    requires Books(s)
    ensures KeepsBooks(s, PostItems(s, receipt, items))
    ensures LeavesTrips(s, PostItems(s, receipt, items))
  {
    if items != [] {
      PostItemsKeepsBooks(s, receipt, items[..|items| - 1]);
      var before, item := PostItems(s, receipt, items[..|items| - 1]), items[|items| - 1];
      if item.accepted > 0 {
        var wanted := if item.batchNo.Some? then item.batchNo.value else "GRN-" + receipt.key;
        var batch := MatchingBatch(before.batches, receipt.warehouse, item.variant, wanted);
        if batch.Some? {
          ReceiveKeepsBooks(before, batch.value, item.accepted, item.expiry, GrnCause(receipt, item));
        } else {
          OpenKeepsBooks(before, if item.batchNo.Some? then item.batchNo.value else "GRN-" + receipt.number,
                         item.expiry, item.accepted, GrnCause(receipt, item));
        }
      }
    }
  }

  /** What posting a line does to the tables: nothing if nothing was accepted; else one batch of the receipt's
      warehouse and the line's variant, under the line's number if it has one, is active and holds that much
      more, with the line's expiry if it has one, and one movement says so. It is a batch that was there
      exactly if one had the number looked for. */
  ghost predicate Posts(s: Tables, after: Tables, receipt: Receipt, item: GrnItem)
  {
    if item.accepted <= 0 then after == s
    else
      |after.log| == |s.log| + 1 &&
      var id := after.log[|s.log|].batch;
      && after.log == s.log + [Movement(Cause(GrnIn, receipt.id, receipt.warehouse, item.variant), id, item.accepted, 0)]
      && id < |after.batches| && PostedRow(s.batches, after.batches[id], id, receipt, item)
      && (id < |s.batches| <==>
            exists i :: 0 <= i < |s.batches| && s.batches[i].warehouse == receipt.warehouse && s.batches[i].variant == item.variant
                     && s.batches[i].batchNo == if item.batchNo.Some? then item.batchNo.value else "GRN-" + receipt.key)
      && after.batches == if id < |s.batches| then s.batches[id := after.batches[id]] else s.batches + [after.batches[id]]
  }

  lemma PostItemRow(s: Tables, receipt: Receipt, item: GrnItem)
    ensures Posts(s, PostItem(s, receipt, item), receipt, item)
  {
  }

  predicate PostedRow(before: seq<Batch>, row: Batch, id: BatchId, receipt: Receipt, item: GrnItem)
  {
    && row.warehouse == receipt.warehouse && row.variant == item.variant && row.status == Active
    && (item.batchNo.Some? ==> row.batchNo == item.batchNo.value)
    && if id < |before|
       then row == before[id].(received := before[id].received + item.accepted, available := before[id].available + item.accepted,
                               expiry := if item.expiry.Some? then item.expiry else before[id].expiry, status := Active)
       else row.received == row.available == item.accepted && row.expiry == item.expiry
            && (item.batchNo.None? ==> row.batchNo == "GRN-" + receipt.number)
  }

  /** A line without a batch number opens a batch exactly when none is already numbered by the receipt's key. */
  lemma UnnamedLineOpens(s: Tables, receipt: Receipt, item: GrnItem)
    requires item.batchNo.None? && item.accepted > 0
    ensures (|PostItem(s, receipt, item).batches| == |s.batches| + 1)
       <==> (forall id :: 0 <= id < |s.batches| && Matches(s.batches[id], receipt.warehouse, item.variant) ==>
               s.batches[id].batchNo != "GRN-" + receipt.key)
  {
  }

  /** Two such lines of one variant end in one batch exactly when that batch existed before, or the
      receipt's number is its key. */
  lemma UnnamedLinesShare(s: Tables, receipt: Receipt, a: GrnItem, b: GrnItem)
    requires a.batchNo.None? && b.batchNo.None? && a.variant == b.variant && a.accepted > 0 && b.accepted > 0
    ensures var one := PostItem(s, receipt, a);
      var two := PostItem(one, receipt, b);
      && |two.log| == |s.log| + 2
      && (two.log[|s.log|].batch == two.log[|s.log| + 1].batch
          <==> MatchingBatch(s.batches, receipt.warehouse, a.variant, "GRN-" + receipt.key).Some? || receipt.number == receipt.key)
  {
    var key, one := "GRN-" + receipt.key, PostItem(s, receipt, a);
    var before := MatchingBatch(s.batches, receipt.warehouse, a.variant, key);
    var after := MatchingBatch(one.batches, receipt.warehouse, a.variant, key);
    NumbersApart(receipt.number, receipt.key);
    if before.Some? {
      SameMatch(s.batches, one.batches, receipt.warehouse, a.variant, key);
    } else {
      assert one.batches[..|s.batches|] == s.batches;
    }
  }

  /** Rows that keep their place and number are found alike. */
  lemma {:induction false} SameMatch(a: seq<Batch>, b: seq<Batch>, warehouse: WarehouseId, variant: VariantId, batchNo: string)
    requires |a| == |b|
    requires forall i :: 0 <= i < |a| ==>
      a[i].warehouse == b[i].warehouse && a[i].variant == b[i].variant && a[i].batchNo == b[i].batchNo
    ensures MatchingBatch(a, warehouse, variant, batchNo) == MatchingBatch(b, warehouse, variant, batchNo)
  {
    if a != [] { SameMatch(a[..|a| - 1], b[..|b| - 1], warehouse, variant, batchNo); }
  }

  /** Two lines without a batch number, of a receipt numbered other than its key, open two batches on empty tables. */
  lemma TwoUnnamedLines(receipt: Receipt, item: GrnItem)
    requires item.batchNo.None? && item.accepted > 0 && receipt.items == [item, item] && receipt.number != receipt.key
    ensures |PostItems(EMPTY, receipt, receipt.items).batches| == 2
  {
    var one := PostItem(EMPTY, receipt, item);
    assert [item, item][..1] == [item] && [item][..0] == [];
    assert PostItems(EMPTY, receipt, []) == EMPTY;
    assert PostItems(EMPTY, receipt, [item]) == one;
    assert PostItems(EMPTY, receipt, [item, item]) == PostItem(one, receipt, item);
    UnnamedLineOpens(EMPTY, receipt, item);
    NumbersApart(receipt.number, receipt.key);
    UnnamedLineOpens(one, receipt, item);
  }

  lemma NumbersApart(a: string, b: string)
    ensures "GRN-" + a == "GRN-" + b ==> a == b
  {
    assert ("GRN-" + a)[4..] == a && ("GRN-" + b)[4..] == b;
  }

  /** As it happens: two lines of a new receipt, in two batches. */
  lemma UnnamedLinesCanSplit(warehouse: WarehouseId, variant: VariantId)
    ensures var item := GrnItem(None, variant, 1, 1, 1, 0, 0, 0, None, None);
      var receipt := Receipt(0, "id", "20240101-0001", None, warehouse, Approved, [item, item]);
      |PostItems(EMPTY, receipt, receipt.items).batches| == 2
  {
    var item := GrnItem(None, variant, 1, 1, 1, 0, 0, 0, None, None);
    var receipt := Receipt(0, "id", "20240101-0001", None, warehouse, Approved, [item, item]);
    assert receipt.number[0] != receipt.key[0];
    TwoUnnamedLines(receipt, item);
  }

  // ---------------------------------------------------------------- purchase-order status

  function AcceptedOn(line: PoLineId): GrnItem -> int
  {
    (item: GrnItem) => if item.poLine == Some(line) then item.accepted else 0
  }

  function PostedAccepted(line: PoLineId): Receipt -> int
  {
    (r: Receipt) => if r.status == Posted then Sum(r.items, AcceptedOn(line)) else 0
  }

  /** What posted receipts have accepted against a purchase-order line. */
  function AcceptedFor(receipts: seq<Receipt>, line: PoLineId): int
  {
    Sum(receipts, PostedAccepted(line))
  }

  predicate FullyReceived(receipts: seq<Receipt>, lines: seq<PoLine>)
  {
    forall i :: 0 <= i < |lines| ==> AcceptedFor(receipts, lines[i].id) >= lines[i].ordered
  }

  predicate AnyReceived(receipts: seq<Receipt>, lines: seq<PoLine>)
  {
    exists i :: 0 <= i < |lines| && AcceptedFor(receipts, lines[i].id) > 0
  }

  /** The status a purchase order should have. */
  function ReceiptStatus(receipts: seq<Receipt>, lines: seq<PoLine>): PoStatus
  {
    if FullyReceived(receipts, lines) then PoReceived
    else if AnyReceived(receipts, lines) then PoPartial
    else PoApproved
  }

  function Rank(status: PoStatus): nat
  {
    match status case PoApproved => 0 case PoPartial => 1 case PoReceived => 2
  }

  // ---------------------------------------------------------------- documents over a run

  datatype Documents = Documents(receipts: seq<Receipt>, orders: seq<PurchaseOrder>)

  datatype Step =
    | CreateGrn(key: string, number: string, po: Option<nat>, warehouse: WarehouseId, raws: seq<RawItem>)
    | UpdateGrn(id: nat, po: Option<nat>, warehouse: WarehouseId, raws: seq<RawItem>)
    | ApproveGrn(id: nat)
    | PostGrn(id: nat)

  function LinesOf(d: Documents, po: Option<nat>): Option<seq<PoLine>>
  {
    if po.Some? && po.value < |d.orders| then Some(d.orders[po.value].lines) else None
  }

  function Create(d: Documents, products: map<VariantId, Product>, key: string, number: string, po: Option<nat>,
      warehouse: WarehouseId, raws: seq<RawItem>): Result<Documents>
  {
    if po.Some? && po.value >= |d.orders| then Err(NotFound)
    else if raws == [] then Err(BadRequest)
    else
      var items := PrepareItems(products, LinesOf(d, po), raws);
      if items.Err? then Err(BadRequest)
      else Ok(d.(receipts := d.receipts + [Receipt(|d.receipts|, key, number, po, warehouse, Draft, items.value)]))
  }

  /** Only a draft can change; without new lines the old ones stay. */
  function Update(d: Documents, products: map<VariantId, Product>, id: nat, po: Option<nat>, warehouse: WarehouseId,
      raws: seq<RawItem>): Result<Documents>
  {
    if id >= |d.receipts| then Err(NotFound)
    else if d.receipts[id].status != Draft then Err(Conflict)
    else if po.Some? && po.value >= |d.orders| then Err(NotFound)
    else
      var items := if raws == [] then Ok(d.receipts[id].items) else PrepareItems(products, LinesOf(d, po), raws);
      if items.Err? then Err(BadRequest)
      else Ok(d.(receipts := d.receipts[id := d.receipts[id].(po := po, warehouse := warehouse, items := items.value)]))
  }

  function Approve(d: Documents, id: nat): Result<Documents>
  {
    if id >= |d.receipts| then Err(NotFound)
    else if d.receipts[id].status == Posted then Err(Conflict)
    else if d.receipts[id].status == Cancelled then Err(BadRequest)
    else Ok(d.(receipts := d.receipts[id := d.receipts[id].(status := Approved)]))
  }

  function Post(d: Documents, id: nat): Result<Documents>
  {
    if id >= |d.receipts| then Err(NotFound)
    else if d.receipts[id].status == Posted then Err(Conflict)
    else if d.receipts[id].status != Approved then Err(BadRequest)
    else if d.receipts[id].items == [] then Err(BadRequest)
    else Ok(Synced(d.(receipts := d.receipts[id := d.receipts[id].(status := Posted)]), d.receipts[id].po))
  }

  /** Recomputes the receipt status of one purchase order. */
  function Synced(d: Documents, po: Option<nat>): Documents
  {
    if po.Some? && po.value < |d.orders|
    then
      var order := d.orders[po.value];
      d.(orders := d.orders[po.value := order.(status := ReceiptStatus(d.receipts, order.lines))])
    else d
  }

  function Apply(d: Documents, products: map<VariantId, Product>, step: Step): Documents
  {
    var r := match step
      case CreateGrn(key, number, po, warehouse, raws) => Create(d, products, key, number, po, warehouse, raws)
      case UpdateGrn(id, po, warehouse, raws) => Update(d, products, id, po, warehouse, raws)
      case ApproveGrn(id) => Approve(d, id)
      case PostGrn(id) => Post(d, id);
    if r.Ok? then r.value else d
  }

  function Run(d: Documents, products: map<VariantId, Product>, steps: seq<Step>): Documents
    decreases |steps|
  {
    if steps == [] then d else Run(Apply(d, products, steps[0]), products, steps[1..])
  }

  /** The order a request names is there, and each of its lines is accepted. */
  ghost predicate Acceptable(d: Documents, products: map<VariantId, Product>, po: Option<nat>, raws: seq<RawItem>)
  {
    && (po.Some? ==> po.value < |d.orders|)
    && forall i :: 0 <= i < |raws| ==>
         PrepareItem(products, if po.Some? then Some(d.orders[po.value].lines) else None, raws[i]).Ok?
  }

  /** A draft made of the prepared lines. */
  ghost predicate DraftOf(r: Receipt, d: Documents, products: map<VariantId, Product>, po: Option<nat>, warehouse: WarehouseId, raws: seq<RawItem>)
    requires po.Some? ==> po.value < |d.orders|
  {
    && r.status == Draft && r.po == po && r.warehouse == warehouse && |r.items| == |raws|
    && forall i :: 0 <= i < |raws| ==>
         PrepareItem(products, if po.Some? then Some(d.orders[po.value].lines) else None, raws[i]) == Ok(r.items[i])
  }

  /** Exactly when a receipt can be made, or a draft changed, and what becomes of it. */
  lemma CreatesExactly(d: Documents, products: map<VariantId, Product>, key: string, number: string, po: Option<nat>, warehouse: WarehouseId, raws: seq<RawItem>)
    ensures var r := Create(d, products, key, number, po, warehouse, raws);
      && (r.Ok? <==> raws != [] && Acceptable(d, products, po, raws))
      && (r.Ok? ==> |r.value.receipts| == |d.receipts| + 1)
      && (r.Ok? ==>
            var made := r.value.receipts[|d.receipts|];
            && r.value == d.(receipts := d.receipts + [made])
            && made.id == |d.receipts| && made.key == key && made.number == number
            && DraftOf(made, d, products, po, warehouse, raws))
  {
    PreparesAll(products, LinesOf(d, po), raws);
  }

  lemma UpdatesExactly(d: Documents, products: map<VariantId, Product>, id: nat, po: Option<nat>, warehouse: WarehouseId, raws: seq<RawItem>)
    ensures var r := Update(d, products, id, po, warehouse, raws);
      && (r.Ok? <==> id < |d.receipts| && d.receipts[id].status == Draft && Acceptable(d, products, po, raws))
      && (r.Ok? ==> |r.value.receipts| == |d.receipts|)
      && (r.Ok? ==>
            var was, now := d.receipts[id], r.value.receipts[id];
            && r.value == d.(receipts := d.receipts[id := now])
            && now.id == was.id && now.key == was.key && now.number == was.number
            && if raws == [] then now == was.(po := po, warehouse := warehouse)
               else DraftOf(now, d, products, po, warehouse, raws))
  {
    PreparesAll(products, LinesOf(d, po), raws);
  }

  ghost predicate SoundReceipts(receipts: seq<Receipt>)
  {
    forall i, j :: 0 <= i < |receipts| && 0 <= j < |receipts[i].items| ==> SoundItem(receipts[i].items[j])
  }

  /** Stored lines are sound, and no order claims more than posted receipts justify. */
  ghost predicate SoundDocuments(d: Documents)
  {
    && SoundReceipts(d.receipts)
    && forall p :: 0 <= p < |d.orders| ==> Rank(d.orders[p].status) <= Rank(ReceiptStatus(d.receipts, d.orders[p].lines))
  }

  lemma {:induction false} PrepareItemsSound(products: map<VariantId, Product>, lines: Option<seq<PoLine>>, raws: seq<RawItem>)
    requires PrepareItems(products, lines, raws).Ok?
    ensures var items := PrepareItems(products, lines, raws).value;
      |items| == |raws| && forall j :: 0 <= j < |items| ==> SoundItem(items[j])
  {
    if raws != [] { PrepareItemsSound(products, lines, raws[..|raws| - 1]); }
  }

  /** Receipts that only gained posted lines never lower a status. */
  lemma StatusNeverFalls(before: seq<Receipt>, after: seq<Receipt>, lines: seq<PoLine>)
    requires forall line: nat :: AcceptedFor(before, line) <= AcceptedFor(after, line)
    ensures Rank(ReceiptStatus(before, lines)) <= Rank(ReceiptStatus(after, lines))
  {
    if AnyReceived(before, lines) {
      var i :| 0 <= i < |lines| && AcceptedFor(before, lines[i].id) > 0;
      assert AcceptedFor(after, lines[i].id) > 0;
    }
  }

  lemma StepAccepted(d: Documents, products: map<VariantId, Product>, step: Step, line: PoLineId)
    requires SoundReceipts(d.receipts)
    ensures AcceptedFor(d.receipts, line) <= AcceptedFor(Apply(d, products, step).receipts, line)
  {
    var after := Apply(d, products, step);
    match step
    case CreateGrn(_, _, _, _, _) =>
      if |after.receipts| != |d.receipts| { SumAppend(d.receipts, after.receipts[|d.receipts|], PostedAccepted(line)); }
    case UpdateGrn(id, _, _, _) =>
      if id < |d.receipts| { SumUpdate(d.receipts, id, after.receipts[id], PostedAccepted(line)); }
    case ApproveGrn(id) =>
      if id < |d.receipts| { SumUpdate(d.receipts, id, after.receipts[id], PostedAccepted(line)); }
    case PostGrn(id) =>
      if id < |d.receipts| {
        SumUpdate(d.receipts, id, after.receipts[id], PostedAccepted(line));
        SumNonNegative(d.receipts[id].items, AcceptedOn(line));
      }
  }

  lemma StepSound(d: Documents, products: map<VariantId, Product>, step: Step)
    requires SoundReceipts(d.receipts)
    ensures SoundReceipts(Apply(d, products, step).receipts)
  {
    match step
    case CreateGrn(_, _, po, _, raws) =>
      if PrepareItems(products, LinesOf(d, po), raws).Ok? { PrepareItemsSound(products, LinesOf(d, po), raws); }
    case UpdateGrn(_, po, _, raws) =>
      if PrepareItems(products, LinesOf(d, po), raws).Ok? { PrepareItemsSound(products, LinesOf(d, po), raws); }
    case _ =>
  }

  lemma StepKeepsDocuments(d: Documents, products: map<VariantId, Product>, step: Step)
    requires SoundDocuments(d)
    ensures var after := Apply(d, products, step);
      && SoundDocuments(after)
      && |after.orders| == |d.orders|
      && forall p :: 0 <= p < |d.orders| ==>
           after.orders[p].lines == d.orders[p].lines && Rank(d.orders[p].status) <= Rank(after.orders[p].status)
  {
    var after := Apply(d, products, step);
    StepSound(d, products, step);
    forall line: nat ensures AcceptedFor(d.receipts, line) <= AcceptedFor(after.receipts, line) {
      StepAccepted(d, products, step, line);
    }
    forall p | 0 <= p < |d.orders|
      ensures Rank(ReceiptStatus(d.receipts, d.orders[p].lines)) <= Rank(ReceiptStatus(after.receipts, d.orders[p].lines))
    {
      StatusNeverFalls(d.receipts, after.receipts, d.orders[p].lines);
    }
  }

  /** Over any run, with fixed ordered quantities, no purchase order's receipt status goes back, because
      posted receipts are frozen. */
  lemma {:induction false} ReceiptStatusNeverFalls(d: Documents, products: map<VariantId, Product>, steps: seq<Step>)
    requires SoundDocuments(d)
    ensures var after := Run(d, products, steps);
      && SoundDocuments(after)
      && |after.orders| == |d.orders|
      && forall p :: 0 <= p < |d.orders| ==>
           after.orders[p].lines == d.orders[p].lines && Rank(d.orders[p].status) <= Rank(after.orders[p].status)
    decreases |steps|
  {
    if steps != [] {
      StepKeepsDocuments(d, products, steps[0]);
      ReceiptStatusNeverFalls(Apply(d, products, steps[0]), products, steps[1..]);
    }
  }

  // ---------------------------------------------------------------- the service

  function LineKey(item: GrnItem): Option<PoLineId> { item.poLine }

  function AddAccepted(total: int, item: GrnItem): int { total + item.accepted }

  function Accepted(item: GrnItem): int { item.accepted }

  /** The lines of posted receipts that belong to the order, in table order. */
  function PostedItems(receipts: seq<Receipt>, lines: seq<PoLine>): seq<GrnItem>
  {
    if receipts == [] then []
    else
      PostedItems(receipts[..|receipts| - 1], lines)
      + if receipts[|receipts| - 1].status == Posted then OrderItems(receipts[|receipts| - 1].items, lines) else []
  }

  function OrderItems(items: seq<GrnItem>, lines: seq<PoLine>): seq<GrnItem>
  {
    if items == [] then []
    else
      var last := items[|items| - 1];
      OrderItems(items[..|items| - 1], lines)
      + if last.poLine.Some? && LineById(lines, last.poLine.value).Some? then [last] else []
  }

  lemma {:induction false} LineByIdFinds(lines: seq<PoLine>, i: nat)
    requires i < |lines|
    ensures LineById(lines, lines[i].id).Some?
  {
    if lines[|lines| - 1].id != lines[i].id { LineByIdFinds(lines[..|lines| - 1], i); }
  }

  lemma {:induction false} OrderItemsSum(items: seq<GrnItem>, lines: seq<PoLine>, line: PoLineId)
    requires LineById(lines, line).Some?
    ensures Sum(OrderItems(items, lines), AcceptedOn(line)) == Sum(items, AcceptedOn(line))
  {
    if items != [] {
      var init, last := items[..|items| - 1], items[|items| - 1];
      OrderItemsSum(init, lines, line);
      assert items == init + [last];
      SumAppend(init, last, AcceptedOn(line));
      SumAppend(OrderItems(init, lines), last, AcceptedOn(line));
      assert OrderItems(init, lines) + [] == OrderItems(init, lines);
    }
  }

  lemma {:induction false} PostedItemsSum(receipts: seq<Receipt>, lines: seq<PoLine>, line: PoLineId)
    requires LineById(lines, line).Some?
    ensures Sum(PostedItems(receipts, lines), AcceptedOn(line)) == AcceptedFor(receipts, line)
  {
    if receipts != [] {
      var init, last := receipts[..|receipts| - 1], receipts[|receipts| - 1];
      PostedItemsSum(init, lines, line);
      SumLast(receipts, PostedAccepted(line));
      if last.status == Posted {
        OrderItemsSum(last.items, lines, line);
        SumConcat(PostedItems(init, lines), OrderItems(last.items, lines), AcceptedOn(line));
      } else {
        assert PostedItems(init, lines) + [] == PostedItems(init, lines);
      }
    }
  }

  /** The accumulated map gives each of the order's lines what posted receipts accepted for it. */
  lemma GroupIsAccepted(receipts: seq<Receipt>, lines: seq<PoLine>, line: PoLineId)
    requires LineById(lines, line).Some?
    ensures Lookup(Group(PostedItems(receipts, lines), LineKey, 0, AddAccepted), Some(line), 0) == AcceptedFor(receipts, line)
  {
    var items := PostedItems(receipts, lines);
    var key: Option<PoLineId> := Some(line);
    GroupLookup(items, LineKey, 0, AddAccepted, key, Same, Accepted);
    forall i | 0 <= i < |items|
      ensures Where(Is(key), LineKey, Accepted)(items[i]) == AcceptedOn(line)(items[i])
    {
      assert Is(key)(LineKey(items[i])) <==> items[i].poLine == key;
    }
    SumAgree(items, Where(Is(key), LineKey, Accepted), AcceptedOn(line));
    PostedItemsSum(receipts, lines, line);
  }

  lemma {:induction false} OrderItemsOfOrder(items: seq<GrnItem>, lines: seq<PoLine>, i: nat)
    requires i < |OrderItems(items, lines)|
    ensures OnOrder(OrderItems(items, lines)[i], lines)
  {
    var init := items[..|items| - 1];
    if i < |OrderItems(init, lines)| { OrderItemsOfOrder(init, lines, i); }
  }

  lemma {:induction false} PostedItemsOfOrder(receipts: seq<Receipt>, lines: seq<PoLine>, i: nat)
    requires i < |PostedItems(receipts, lines)|
    ensures OnOrder(PostedItems(receipts, lines)[i], lines)
  {
    var init := receipts[..|receipts| - 1];
    if i < |PostedItems(init, lines)| { PostedItemsOfOrder(init, lines, i); }
    else { OrderItemsOfOrder(receipts[|receipts| - 1].items, lines, i - |PostedItems(init, lines)|); }
  }

  predicate OnOrder(item: GrnItem, lines: seq<PoLine>)
  {
    item.poLine.Some? && LineById(lines, item.poLine.value).Some?
  }

  lemma {:induction false} LineByIdIndex(lines: seq<PoLine>, id: PoLineId) returns (i: nat)
    requires LineById(lines, id).Some?
    ensures i < |lines| && lines[i].id == id
  {
    i := |lines| - 1;
    if lines[i].id != id { i := LineByIdIndex(lines[..i], id); }
  }

  /** Some accumulated quantity is positive exactly when some line of the order has received any. */
  lemma SomeGroupPositive(receipts: seq<Receipt>, lines: seq<PoLine>, rows: seq<Row<Option<PoLineId>, int>>)
    requires rows == Group(PostedItems(receipts, lines), LineKey, 0, AddAccepted)
    ensures (exists i :: 0 <= i < |rows| && rows[i].value > 0) <==> AnyReceived(receipts, lines)
  {
    var items := PostedItems(receipts, lines);
    if AnyReceived(receipts, lines) {
      var i :| 0 <= i < |lines| && AcceptedFor(receipts, lines[i].id) > 0;
      LineByIdFinds(lines, i);
      GroupIsAccepted(receipts, lines, lines[i].id);
      var r := LookupFound(rows, Some(lines[i].id), 0);
    }
    if i :| 0 <= i < |rows| && rows[i].value > 0 {
      GroupDistinct(items, LineKey, 0, AddAccepted);
      var x := GroupKey(items, LineKey, 0, AddAccepted, rows[i].key);
      PostedItemsOfOrder(receipts, lines, x);
      var line := rows[i].key.value;
      LookupAt(rows, i, 0);
      GroupIsAccepted(receipts, lines, line);
      var n := LineByIdIndex(lines, line);
    }
  }

  class GoodsReceiptsService {
    const db: StockDb
    var receipts: seq<Receipt>
    var orders: seq<PurchaseOrder>

    constructor (db: StockDb, orders: seq<PurchaseOrder>)
      ensures this.db == db && Docs() == Documents([], orders)
    {
      this.db, this.receipts, this.orders := db, [], orders;
    }

    function Docs(): Documents
      reads this
    {
      Documents(receipts, orders)
    }

    method PrepareGrnItems(products: map<VariantId, Product>, lines: Option<seq<PoLine>>, raws: seq<RawItem>)
      returns (r: Result<seq<GrnItem>>)
      ensures r == if raws == [] then Err(BadRequest) else PrepareItems(products, lines, raws)
    {
      if raws == [] { return Err(BadRequest); }
      var items: seq<GrnItem> := [];
      for n := 0 to |raws|
        invariant PrepareItems(products, lines, raws[..n]) == Ok(items)
      {
        assert raws[..n + 1][..n] == raws[..n];
        var item := PrepareItem(products, lines, raws[n]);
        if item.Err? {
          PrepareFails(products, lines, raws, n + 1);
          return Err(BadRequest);
        }
        items := items + [item.value];
      }
      assert raws[..|raws|] == raws;
      return Ok(items);
    }

    static lemma {:induction false} PrepareFails(products: map<VariantId, Product>, lines: Option<seq<PoLine>>, raws: seq<RawItem>, n: nat)
      requires n <= |raws| && PrepareItems(products, lines, raws[..n]).Err?
      ensures PrepareItems(products, lines, raws) == Err(BadRequest)
    {
      if n == |raws| { assert raws[..n] == raws; } else {
        assert raws[..|raws| - 1][..n] == raws[..n];
        PrepareFails(products, lines, raws[..|raws| - 1], n);
      }
    }

    method CreateGrn(products: map<VariantId, Product>, key: string, number: string, po: Option<nat>,
        warehouse: WarehouseId, raws: seq<RawItem>) returns (r: Result<nat>)
      modifies this
      ensures var spec := Create(old(Docs()), products, key, number, po, warehouse, raws);
        && Docs() == (if spec.Ok? then spec.value else old(Docs()))
        && r == if spec.Ok? then Ok(|old(receipts)|) else Err(spec.error)
      ensures r.Ok? <==> raws != [] && Acceptable(old(Docs()), products, po, raws)
      ensures r.Ok? ==> |receipts| == |old(receipts)| + 1
      ensures r.Ok? ==>
        var made := receipts[r.value];
        && made.id == r.value && made.key == key && made.number == number
        && DraftOf(made, old(Docs()), products, po, warehouse, raws)
    {
      CreatesExactly(Docs(), products, key, number, po, warehouse, raws);
      if po.Some? && po.value >= |orders| { return Err(NotFound); }
      var items := PrepareGrnItems(products, LinesOf(Docs(), po), raws);
      if items.Err? { return Err(items.error); }
      r := Ok(|receipts|);
      receipts := receipts + [Receipt(|receipts|, key, number, po, warehouse, Draft, items.value)];
    }

    method UpdateGrn(products: map<VariantId, Product>, id: nat, po: Option<nat>, warehouse: WarehouseId,
        raws: seq<RawItem>) returns (r: Result<nat>)
      modifies this
      ensures var spec := Update(old(Docs()), products, id, po, warehouse, raws);
        && Docs() == (if spec.Ok? then spec.value else old(Docs()))
        && r == if spec.Ok? then Ok(id) else Err(spec.error)
      ensures r.Ok? <==> id < |old(receipts)| && old(receipts)[id].status == Draft && Acceptable(old(Docs()), products, po, raws)
      ensures r.Ok? ==> |receipts| == |old(receipts)|
      ensures r.Ok? ==>
        if raws == [] then receipts == old(receipts)[id := old(receipts)[id].(po := po, warehouse := warehouse)]
        else DraftOf(receipts[id], old(Docs()), products, po, warehouse, raws)
    {
      UpdatesExactly(Docs(), products, id, po, warehouse, raws);
      if id >= |receipts| { return Err(NotFound); }
      var receipt := receipts[id];
      if receipt.status in {Approved, Posted, Cancelled} { return Err(Conflict); }
      if po.Some? && po.value >= |orders| { return Err(NotFound); }
      var items := receipt.items;
      if raws != [] {
        var prepared := PrepareGrnItems(products, LinesOf(Docs(), po), raws);
        if prepared.Err? { return Err(prepared.error); }
        items := prepared.value;
      }
      receipts := receipts[id := receipt.(po := po, warehouse := warehouse, items := items)];
      return Ok(id);
    }

    method ApproveGrn(id: nat) returns (r: Result<nat>)
      modifies this
      ensures var spec := Approve(old(Docs()), id);
        && Docs() == (if spec.Ok? then spec.value else old(Docs()))
        && r == if spec.Ok? then Ok(id) else Err(spec.error)
      ensures r.Ok? <==> id < |old(receipts)| && old(receipts)[id].status in {Draft, Approved}
      ensures r.Ok? ==> receipts == old(receipts)[id := old(receipts)[id].(status := Approved)]
    {
      if id >= |receipts| { return Err(NotFound); }
      if receipts[id].status == Posted { return Err(Conflict); }
      if receipts[id].status == Cancelled { return Err(BadRequest); }
      receipts := receipts[id := receipts[id].(status := Approved)];
      return Ok(id);
    }

    /** Posts the lines to stock, freezes the receipt and recomputes its order's status. */
    method PostGrn(id: nat) returns (r: Result<nat>)
      modifies this, db
      ensures var spec := Post(old(Docs()), id);
        && Docs() == (if spec.Ok? then spec.value else old(Docs()))
        && (r == if spec.Ok? then Ok(id) else Err(spec.error))
        && db.View() == if spec.Ok? then PostItems(old(db.View()), old(receipts)[id], old(receipts)[id].items)
                        else old(db.View())
      ensures r.Ok? <==> id < |old(receipts)| && old(receipts)[id].status == Approved && old(receipts)[id].items != []
      ensures r.Ok? ==>
        && receipts == old(receipts)[id := old(receipts)[id].(status := Posted)]
        && |orders| == |old(orders)|
        && forall p :: 0 <= p < |orders| ==>
             orders[p].lines == old(orders)[p].lines && (old(receipts)[id].po != Some(p) ==> orders[p] == old(orders)[p])
    {
      if id >= |receipts| { return Err(NotFound); }
      var receipt := receipts[id];
      if receipt.status == Posted { return Err(Conflict); }
      if receipt.status != Approved { return Err(BadRequest); }
      if receipt.items == [] { return Err(BadRequest); }
      PostToStock(receipt, receipt.items);
      receipts := receipts[id := receipt.(status := Posted)];
      if receipt.po.Some? && receipt.po.value < |orders| {
        SyncPurchaseOrderReceiptStatus(receipt.po.value);
      }
      return Ok(id);
    }

    method PostToStock(receipt: Receipt, items: seq<GrnItem>)
      modifies db
      ensures db.View() == PostItems(old(db.View()), receipt, items)
    {
      for n := 0 to |items|
        invariant db.View() == PostItems(old(db.View()), receipt, items[..n])
      {
        assert items[..n + 1][..n] == items[..n];
        PostLine(receipt, items[n]);
      }
      assert items[..|items|] == items;
    }

    method PostLine(receipt: Receipt, item: GrnItem)
      modifies db
      ensures db.View() == PostItem(old(db.View()), receipt, item)
      ensures Posts(old(db.View()), db.View(), receipt, item)
    {
      ghost var before := db.View();
      PostItemRow(before, receipt, item);
      if item.accepted <= 0 { return; }
      var found := MatchingBatch(db.batches, receipt.warehouse, item.variant,
                                 if item.batchNo.Some? then item.batchNo.value else "GRN-" + receipt.key);
      var target;
      if found.Some? {
        target := found.value;
        var batch := db.batches[target];
        db.batches := db.batches[target := batch.(
          received := batch.received + item.accepted,
          available := batch.available + item.accepted,
          expiry := if item.expiry.Some? then item.expiry else batch.expiry,
          status := Active)];
      } else {
        target := |db.batches|;
        db.batches := db.batches + [Batch(item.variant, receipt.warehouse,
          if item.batchNo.Some? then item.batchNo.value else "GRN-" + receipt.number,
          item.expiry, item.accepted, item.accepted, Active)];
      }
      db.log := db.log + [Movement(GrnCause(receipt, item), target, item.accepted, 0)];
      assert found.Some? ==> db.View() == Receive(before, found.value, item.accepted, item.expiry, GrnCause(receipt, item));
      assert db.View() == PostItem(before, receipt, item);
    }

    method SyncPurchaseOrderReceiptStatus(po: nat)
      requires po < |orders|
      modifies this
      ensures Docs() == Synced(old(Docs()), Some(po))
    {
      var lines := orders[po].lines;
      var items := PostedItems(receipts, lines);
      var accepted: seq<Row<Option<PoLineId>, int>> := [];
      for n := 0 to |items|
        invariant accepted == Group(items[..n], LineKey, 0, AddAccepted)
      {
        var key := items[n].poLine;
        accepted := Upsert(accepted, key, Lookup(accepted, key, 0) + items[n].accepted);
        assert items[..n + 1][..n] == items[..n];
      }
      assert items[..|items|] == items;
      var allReceived := forall i | 0 <= i < |lines| :: Lookup(accepted, Some(lines[i].id), 0) >= lines[i].ordered;
      var anyReceived := exists i | 0 <= i < |accepted| :: accepted[i].value > 0;
      forall i | 0 <= i < |lines| ensures Lookup(accepted, Some(lines[i].id), 0) == AcceptedFor(receipts, lines[i].id) {
        LineByIdFinds(lines, i);
        GroupIsAccepted(receipts, lines, lines[i].id);
      }
      SomeGroupPositive(receipts, lines, accepted);
      orders := orders[po := orders[po].(
        status := if allReceived then PoReceived else if anyReceived then PoPartial else PoApproved)];
    }
  }
}
