/** The batch and movement tables four services write, and the expiry-ordered issue of stock.
    Quantities are integers in thousandths. A batch's id is its position in the table, so ids are
    fresh and ascending in creation order. */
module Stock {
  import opened Wrappers
  import opened Sums
  import opened Sorting
  import opened Greedy

  type BatchId = nat
  type WarehouseId = nat
  type VariantId = nat

  datatype BatchStatus = Active | Consumed | Blocked

  datatype Batch = Batch(
    variant: VariantId,
    warehouse: WarehouseId,
    batchNo: string,
    expiry: Option<int>,
    received: int,
    available: int,
    status: BatchStatus)

  datatype MovementType = GrnIn | AdjustmentIn | AdjustmentOut | DispatchOut | ReturnIn | ReturnOut

  /** Why stock moved: the fields every movement of one step shares. */
  datatype Cause = Cause(kind: MovementType, reference: nat, warehouse: WarehouseId, variant: VariantId)

  datatype Movement = Movement(cause: Cause, batch: BatchId, qtyIn: int, qtyOut: int)

  datatype Tables = Tables(batches: seq<Batch>, log: seq<Movement>)

  const EMPTY := Tables([], [])

  // ---------------------------------------------------------------- row writes

  /** Adds received stock to a batch and makes it active again. */
  function Receive(s: Tables, id: BatchId, qty: int, expiry: Option<int>, cause: Cause): Tables
    requires id < |s.batches|
  {
    var b := s.batches[id];
    Tables(s.batches[id := b.(received := b.received + qty, available := b.available + qty,
                              expiry := if expiry.Some? then expiry else b.expiry, status := Active)],
           s.log + [Movement(cause, id, qty, 0)])
  }

  /** Creates a batch holding what was received. */
  function Open(s: Tables, batchNo: string, expiry: Option<int>, qty: int, cause: Cause): Tables
  {
    Tables(s.batches + [Batch(cause.variant, cause.warehouse, batchNo, expiry, qty, qty, Active)],
           s.log + [Movement(cause, |s.batches|, qty, 0)])
  }

  /** Puts returned goods back on the shelf; neither the received quantity nor the status changes. */
  function Restock(s: Tables, id: BatchId, qty: int, cause: Cause): Tables
    requires id < |s.batches|
  {
    var b := s.batches[id];
    Tables(s.batches[id := b.(available := b.available + qty)], s.log + [Movement(cause, id, qty, 0)])
  }

  function Taken(b: Batch, qty: int): Batch
  {
    if qty <= 0 then b
    else b.(available := b.available - qty,
            status := if b.available - qty <= 0 then Consumed else b.status)
  }

  /** Takes stock out of a batch. */
  function Issue(s: Tables, id: BatchId, qty: int, cause: Cause): Tables
    requires id < |s.batches|
  {
    Tables(s.batches[id := Taken(s.batches[id], qty)], s.log + [Movement(cause, id, 0, qty)])
  }

  /** A supplier return: the shelf is floored at zero but the movement records the full quantity. */
  function Withdraw(s: Tables, id: BatchId, qty: int, cause: Cause): Tables
    requires id < |s.batches|
  {
    var b := s.batches[id];
    Tables(s.batches[id := b.(available := Max(b.available - qty, 0))], s.log + [Movement(cause, id, 0, qty)])
  }

  // ---------------------------------------------------------------- the books

  function Entered(id: BatchId): Movement -> int
  {
    (m: Movement) => if m.batch == id then m.qtyIn else 0
  }

  function Acquired(id: BatchId): Movement -> int
  {
    (m: Movement) => if m.batch == id && m.cause.kind != ReturnIn then m.qtyIn else 0
  }

  function Removed(id: BatchId): Movement -> int
  {
    (m: Movement) => if m.batch == id then m.qtyOut else 0
  }

  /** What has been issued to a trip of a variant. */
  function IssuedTo(trip: nat, variant: VariantId): Movement -> int
  {
    (m: Movement) =>
      if m.cause.kind == DispatchOut && m.cause.reference == trip && m.cause.variant == variant then m.qtyOut else 0
  }

  function Issued(s: Tables, trip: nat, variant: VariantId): int
  {
    Sum(s.log, IssuedTo(trip, variant))
  }

  /** No trip was issued anything in between. */
  ghost predicate LeavesTrips(before: Tables, after: Tables)
  {
    forall trip: nat, variant: VariantId :: Issued(after, trip, variant) == Issued(before, trip, variant)
  }

  /** What the shelf holds beyond what the movement log accounts for. */
  function Slack(s: Tables, id: BatchId): int
  {
    if id < |s.batches|
    then s.batches[id].available - (Sum(s.log, Entered(id)) - Sum(s.log, Removed(id)))
    else 0
  }

  ghost predicate BatchBooks(s: Tables, id: BatchId)
    requires id < |s.batches|
  {
    s.batches[id].available >= 0 && s.batches[id].received == Sum(s.log, Acquired(id))
  }

  ghost predicate Books(s: Tables)
  {
    && (forall i :: 0 <= i < |s.log| ==> s.log[i].batch < |s.batches|)
    && (forall id: nat :: id < |s.batches| ==> BatchBooks(s, id))
  }

  /** `after` continues `before` with sound books and nothing unaccounted for. */
  ghost predicate KeepsBooks(before: Tables, after: Tables)
  {
    && Books(after)
    && |before.batches| <= |after.batches|
    && forall id: nat :: Slack(after, id) == Slack(before, id)
  }

  lemma Logged(log: seq<Movement>, m: Movement, id: BatchId)
    ensures Sum(log + [m], Entered(id)) == Sum(log, Entered(id)) + Entered(id)(m)
    ensures Sum(log + [m], Acquired(id)) == Sum(log, Acquired(id)) + Acquired(id)(m)
    ensures Sum(log + [m], Removed(id)) == Sum(log, Removed(id)) + Removed(id)(m)
  {
    SumAppend(log, m, Entered(id));
    SumAppend(log, m, Acquired(id));
    SumAppend(log, m, Removed(id));
  }

  lemma LoggedOther(log: seq<Movement>, m: Movement)
    ensures m.cause.kind != DispatchOut ==> forall trip: nat, variant: VariantId ::
              Sum(log + [m], IssuedTo(trip, variant)) == Sum(log, IssuedTo(trip, variant))
  {
    forall trip: nat, variant: VariantId
      ensures m.cause.kind != DispatchOut ==> Sum(log + [m], IssuedTo(trip, variant)) == Sum(log, IssuedTo(trip, variant))
    {
      SumAppend(log, m, IssuedTo(trip, variant));
    }
  }

  lemma {:induction false} Unlogged(log: seq<Movement>, id: BatchId)
    requires forall i :: 0 <= i < |log| ==> log[i].batch != id
    ensures Sum(log, Entered(id)) == Sum(log, Acquired(id)) == Sum(log, Removed(id)) == 0
  {
    if log != [] { Unlogged(log[1..], id); }
  }

  lemma ReceiveKeepsBooks(s: Tables, id: BatchId, qty: int, expiry: Option<int>, cause: Cause)
    requires Books(s) && id < |s.batches| && qty >= 0 && cause.kind != ReturnIn
    ensures KeepsBooks(s, Receive(s, id, qty, expiry, cause))
    ensures cause.kind != DispatchOut ==> LeavesTrips(s, Receive(s, id, qty, expiry, cause))
  {
    var after := Receive(s, id, qty, expiry, cause);
    LoggedOther(s.log, Movement(cause, id, qty, 0));
    forall b: nat ensures Slack(after, b) == Slack(s, b) && (b < |s.batches| ==> BatchBooks(after, b)) {
      Logged(s.log, Movement(cause, id, qty, 0), b);
      assert b < |s.batches| ==> BatchBooks(s, b);
    }
  }

  lemma OpenKeepsBooks(s: Tables, batchNo: string, expiry: Option<int>, qty: int, cause: Cause)
    requires Books(s) && qty >= 0 && cause.kind != ReturnIn
    ensures KeepsBooks(s, Open(s, batchNo, expiry, qty, cause))
    ensures cause.kind != DispatchOut ==> LeavesTrips(s, Open(s, batchNo, expiry, qty, cause))
  {
    var after := Open(s, batchNo, expiry, qty, cause);
    LoggedOther(s.log, Movement(cause, |s.batches|, qty, 0));
    Unlogged(s.log, |s.batches|);
    forall b: nat ensures Slack(after, b) == Slack(s, b) && (b < |after.batches| ==> BatchBooks(after, b)) {
      Logged(s.log, Movement(cause, |s.batches|, qty, 0), b);
      assert b < |s.batches| ==> BatchBooks(s, b);
    }
  }

  lemma RestockKeepsBooks(s: Tables, id: BatchId, qty: int, cause: Cause)
    requires Books(s) && id < |s.batches| && qty >= 0 && cause.kind == ReturnIn
    ensures KeepsBooks(s, Restock(s, id, qty, cause))
    ensures cause.kind != DispatchOut ==> LeavesTrips(s, Restock(s, id, qty, cause))
  {
    var after := Restock(s, id, qty, cause);
    LoggedOther(s.log, Movement(cause, id, qty, 0));
    forall b: nat ensures Slack(after, b) == Slack(s, b) && (b < |s.batches| ==> BatchBooks(after, b)) {
      Logged(s.log, Movement(cause, id, qty, 0), b);
      assert b < |s.batches| ==> BatchBooks(s, b);
    }
  }

  lemma IssueKeepsBooks(s: Tables, id: BatchId, qty: int, cause: Cause)
    requires Books(s) && id < |s.batches| && 0 <= qty <= s.batches[id].available
    ensures KeepsBooks(s, Issue(s, id, qty, cause))
    ensures cause.kind != DispatchOut ==> LeavesTrips(s, Issue(s, id, qty, cause))
  {
    var after := Issue(s, id, qty, cause);
    LoggedOther(s.log, Movement(cause, id, 0, qty));
    forall b: nat ensures Slack(after, b) == Slack(s, b) && (b < |s.batches| ==> BatchBooks(after, b)) {
      Logged(s.log, Movement(cause, id, 0, qty), b);
      assert b < |s.batches| ==> BatchBooks(s, b);
    }
  }

  /** The one write that can leave the log ahead of the shelf: by what the shelf did not hold. */
  lemma WithdrawLeavesExcess(s: Tables, id: BatchId, qty: int, cause: Cause)
    requires Books(s) && id < |s.batches| && qty >= 0
    ensures Books(Withdraw(s, id, qty, cause))
    ensures forall b: nat :: Slack(Withdraw(s, id, qty, cause), b)
                          == Slack(s, b) + if b == id then Max(qty - s.batches[id].available, 0) else 0
    ensures cause.kind != DispatchOut ==> LeavesTrips(s, Withdraw(s, id, qty, cause))
  {
    var after := Withdraw(s, id, qty, cause);
    LoggedOther(s.log, Movement(cause, id, 0, qty));
    forall b: nat
      ensures Slack(after, b) == Slack(s, b) + if b == id then Max(qty - s.batches[id].available, 0) else 0
      ensures b < |s.batches| ==> BatchBooks(after, b)
    {
      Logged(s.log, Movement(cause, id, 0, qty), b);
      assert b < |s.batches| ==> BatchBooks(s, b);
    }
  }

  // ---------------------------------------------------------------- first expired, first out

  predicate Matches(b: Batch, warehouse: WarehouseId, variant: VariantId)
  {
    b.warehouse == warehouse && b.variant == variant
  }

  /** Ids of the batches of a variant in a warehouse, in creation order. */
  function MatchingIds(batches: seq<Batch>, warehouse: WarehouseId, variant: VariantId): seq<BatchId>
  {
    if batches == [] then []
    else
      var n := |batches| - 1;
      var ids := MatchingIds(batches[..n], warehouse, variant);
      if Matches(batches[n], warehouse, variant) then ids + [n] else ids
  }

  lemma {:induction false} MatchingIdsMatch(batches: seq<Batch>, warehouse: WarehouseId, variant: VariantId)
    ensures var ids := MatchingIds(batches, warehouse, variant);
      && (forall id: nat :: id in ids <==> id < |batches| && Matches(batches[id], warehouse, variant))
      && NoRepeats(ids)
  {
    if batches != [] {
      var n := |batches| - 1;
      var ids := MatchingIds(batches[..n], warehouse, variant);
      MatchingIdsMatch(batches[..n], warehouse, variant);
      assert n !in ids && forall i :: 0 <= i < |ids| ==> ids[i] in ids;
    }
  }

  /** Earlier expiry first, batches without expiry last, ties by creation. */
  function Earlier(batches: seq<Batch>): (BatchId, BatchId) -> bool
  {
    (i: BatchId, j: BatchId) =>
      var a := if i < |batches| then batches[i].expiry else None;
      var b := if j < |batches| then batches[j].expiry else None;
      if a.Some? && b.Some? && a.value != b.value then a.value < b.value
      else if a.Some? != b.Some? then a.Some?
      else i < j
  }

  function FefoOrder(batches: seq<Batch>, warehouse: WarehouseId, variant: VariantId): seq<BatchId>
  {
    SortBy(MatchingIds(batches, warehouse, variant), Earlier(batches))
  }

  /** The query lists the place's batches once each: expiry ascending, none last, ties by creation. */
  lemma FefoOrderIsSorted(batches: seq<Batch>, warehouse: WarehouseId, variant: VariantId)
    ensures var ids := FefoOrder(batches, warehouse, variant);
      && NoRepeats(ids)
      && (forall id: nat :: id in ids <==> id < |batches| && batches[id].warehouse == warehouse && batches[id].variant == variant)
      && (forall i, j :: 0 <= i < j < |ids| ==> ListedBefore(batches, ids[i], ids[j]))
  {
    FefoOrderSorts(batches, warehouse, variant);
    var ids := FefoOrder(batches, warehouse, variant);
    forall i, j | 0 <= i < j < |ids| ensures ListedBefore(batches, ids[i], ids[j]) {
      assert ids[i] in ids && ids[j] in ids && Earlier(batches)(ids[i], ids[j]);
    }
  }

  /** Expiry ascending with none last, and ids ascending among equals. */
  predicate ListedBefore(batches: seq<Batch>, i: BatchId, j: BatchId)
  {
    && i < |batches| && j < |batches|
    && (batches[j].expiry.Some? ==> batches[i].expiry.Some? && batches[i].expiry.value <= batches[j].expiry.value)
    && (batches[i].expiry == batches[j].expiry ==> i < j)
  }

  lemma FefoOrderSorts(batches: seq<Batch>, warehouse: WarehouseId, variant: VariantId)
    ensures var ids := FefoOrder(batches, warehouse, variant);
      && NoRepeats(ids)
      && (forall id: nat :: id in ids <==> id < |batches| && Matches(batches[id], warehouse, variant))
      && (forall i, j :: 0 <= i < j < |ids| ==> Earlier(batches)(ids[i], ids[j]))
  {
    var ids := FefoOrder(batches, warehouse, variant);
    MatchingIdsMatch(batches, warehouse, variant);
    SortBySorted(MatchingIds(batches, warehouse, variant), Earlier(batches));
    SortByNoRepeats(MatchingIds(batches, warehouse, variant), Earlier(batches));
    forall i, j | 0 <= i < j < |ids| ensures Earlier(batches)(ids[i], ids[j]) {
      assert !Earlier(batches)(ids[j], ids[i]) && ids[i] != ids[j];
    }
  }

  ghost predicate InTable(s: Tables, ids: seq<BatchId>)
  {
    forall i :: 0 <= i < |ids| ==> ids[i] < |s.batches|
  }

  function Shelf(s: Tables, ids: seq<BatchId>): seq<int>
    requires InTable(s, ids)
  {
    seq(|ids|, i requires 0 <= i < |ids| => s.batches[ids[i]].available)
  }

  function Rows(s: Tables, ids: seq<BatchId>): seq<Batch>
    requires InTable(s, ids)
  {
    seq(|ids|, i requires 0 <= i < |ids| => s.batches[ids[i]])
  }

  /** The `availableQty: { gt: 0 }` part of the query. */
  function Live(s: Tables, ids: seq<BatchId>): (live: seq<BatchId>)
    requires InTable(s, ids)
    ensures InTable(s, live)
  {
    if ids == [] then []
    else if s.batches[ids[0]].available > 0 then [ids[0]] + Live(s, ids[1..])
    else Live(s, ids[1..])
  }

  lemma {:induction false} LiveMembers(s: Tables, ids: seq<BatchId>)
    requires InTable(s, ids) && NoRepeats(ids)
    ensures var live := Live(s, ids);
      && NoRepeats(live)
      && (forall id :: id in live <==> id in ids && s.batches[id].available > 0)
      && (forall k :: 0 <= k < |live| ==> s.batches[live[k]].available > 0)
  {
    if ids != [] {
      assert forall id :: id in ids <==> id == ids[0] || id in ids[1..];
      assert ids[0] !in ids[1..];
      LiveMembers(s, ids[1..]);
    }
  }

  /** The loading loop: empty the batches in order until the quantity is met. */
  function Drain(s: Tables, ids: seq<BatchId>, qty: int, cause: Cause): (after: Tables)
    requires InTable(s, ids)
    ensures |after.batches| == |s.batches|
    decreases |ids|
  {
    if ids == [] || qty <= 0 then s
    else
      var held := s.batches[ids[0]].available;
      if held <= 0 then Drain(s, ids[1..], qty, cause)
      else Drain(Issue(s, ids[0], Min(held, qty), cause), ids[1..], qty - Min(held, qty), cause)
  }

  lemma DrainStep(s: Tables, ids: seq<BatchId>, n: nat, qty: int, cause: Cause)
    requires InTable(s, ids) && n < |ids| && qty > 0 && s.batches[ids[n]].available > 0
    ensures var take := Min(s.batches[ids[n]].available, qty);
      Drain(s, ids[n..], qty, cause) == Drain(Issue(s, ids[n], take, cause), ids[n + 1..], qty - take, cause)
  {
    assert ids[n..][1..] == ids[n + 1..];
  }

  ghost predicate Stocked(s: Tables, ids: seq<BatchId>)
  {
    InTable(s, ids) && NoRepeats(ids) && forall i :: 0 <= i < |ids| ==> s.batches[ids[i]].available >= 0
  }

  /** Looping over the live batches only is looping over all of them. */
  lemma {:induction false} DrainLive(s: Tables, ids: seq<BatchId>, base: Tables, qty: int, cause: Cause)
    requires InTable(s, ids) && NoRepeats(ids) && InTable(base, ids)
    requires forall i :: 0 <= i < |ids| ==> s.batches[ids[i]] == base.batches[ids[i]]
    ensures InTable(s, Live(base, ids))
    ensures Drain(s, Live(base, ids), qty, cause) == Drain(s, ids, qty, cause)
    decreases |ids|
  {
    if ids != [] {
      var held, rest := s.batches[ids[0]].available, ids[1..];
      TailAgrees(s, ids, base);
      if held <= 0 || qty <= 0 {
        DrainLive(s, rest, base, qty, cause);
      } else {
        var next := Issue(s, ids[0], Min(held, qty), cause);
        TailAgrees(next, ids, s);
        assert forall i :: 0 <= i < |rest| ==> next.batches[rest[i]] == base.batches[rest[i]];
        DrainLive(next, rest, base, qty - Min(held, qty), cause);
        assert Live(base, ids) == [ids[0]] + Live(base, rest);
        assert Live(base, ids)[1..] == Live(base, rest);
      }
    }
  }

  /** A write to the first batch leaves the rest of the list as it was. */
  lemma TailAgrees(s: Tables, ids: seq<BatchId>, base: Tables)
    requires ids != [] && InTable(s, ids) && InTable(base, ids) && NoRepeats(ids)
    requires forall id: nat :: id < |s.batches| && id < |base.batches| && id != ids[0] && id in ids ==>
               s.batches[id] == base.batches[id]
    ensures InTable(s, ids[1..]) && InTable(base, ids[1..]) && NoRepeats(ids[1..])
    ensures forall i :: 0 <= i < |ids[1..]| ==> s.batches[ids[1..][i]] == base.batches[ids[1..][i]]
    ensures Shelf(s, ids[1..]) == Shelf(base, ids)[1..]
    ensures ids[0] !in ids[1..]
  {
    forall i | 0 <= i < |ids[1..]|
      ensures s.batches[ids[1..][i]] == base.batches[ids[1..][i]] && ids[1..][i] != ids[0]
    {
      assert ids[1..][i] == ids[i + 1];
    }
  }

  /** Draining touches no batch off the list. */
  lemma {:induction false} DrainFrame(s: Tables, ids: seq<BatchId>, qty: int, cause: Cause, id: nat)
    requires InTable(s, ids) && id < |s.batches| && id !in ids
    ensures Drain(s, ids, qty, cause).batches[id] == s.batches[id]
    decreases |ids|
  {
    if ids != [] && qty > 0 {
      var held := s.batches[ids[0]].available;
      if held <= 0 { DrainFrame(s, ids[1..], qty, cause, id); }
      else { DrainFrame(Issue(s, ids[0], Min(held, qty), cause), ids[1..], qty - Min(held, qty), cause, id); }
    }
  }

  /** One round of the loop, on its first batch. */
  lemma DrainHead(s: Tables, ids: seq<BatchId>, qty: int, cause: Cause) returns (next: Tables, take: int)
    requires Stocked(s, ids) && ids != [] && qty > 0
    ensures take == Min(s.batches[ids[0]].available, qty)
    ensures next == if take <= 0 then s else Issue(s, ids[0], take, cause)
    ensures Drain(s, ids, qty, cause) == Drain(next, ids[1..], qty - take, cause)
    ensures next.batches == s.batches[ids[0] := Taken(s.batches[ids[0]], take)]
    ensures Stocked(next, ids[1..]) && Shelf(next, ids[1..]) == Shelf(s, ids)[1..]
    ensures forall i :: 0 <= i < |ids[1..]| ==> ids[1..][i] == ids[i + 1] && next.batches[ids[1..][i]] == s.batches[ids[i + 1]]
  {
    take := Min(s.batches[ids[0]].available, qty);
    next := if take <= 0 then s else Issue(s, ids[0], take, cause);
    TailAgrees(next, ids, s);
  }

  /** Draining takes from each batch exactly its greedy share. */
  lemma {:induction false} DrainShare(s: Tables, ids: seq<BatchId>, qty: int, cause: Cause, k: nat)
    requires Stocked(s, ids) && k < |ids|
    ensures Drain(s, ids, qty, cause).batches[ids[k]] == Taken(s.batches[ids[k]], Fill(Shelf(s, ids), qty)[k])
    decreases |ids|
  {
    if qty <= 0 {
      FillNothing(Shelf(s, ids), qty);
    } else {
      var next, take := DrainHead(s, ids, qty, cause);
      if k == 0 {
        DrainFrame(next, ids[1..], qty - take, cause, ids[0]);
      } else {
        DrainShare(next, ids[1..], qty - take, cause, k - 1);
        assert ids[1..][k - 1] == ids[k];
      }
    }
  }

  /** Draining takes from each batch exactly its greedy share, and touches no other batch. */
  lemma DrainIsFill(s: Tables, ids: seq<BatchId>, qty: int, cause: Cause)
    requires Stocked(s, ids)
    ensures var after := Drain(s, ids, qty, cause);
      var share := Fill(Shelf(s, ids), qty);
      && (forall k :: 0 <= k < |ids| ==> after.batches[ids[k]] == Taken(s.batches[ids[k]], share[k]))
      && (forall id: nat :: id < |s.batches| && id !in ids ==> after.batches[id] == s.batches[id])
  {
    forall k | 0 <= k < |ids|
      ensures Drain(s, ids, qty, cause).batches[ids[k]] == Taken(s.batches[ids[k]], Fill(Shelf(s, ids), qty)[k])
    {
      DrainShare(s, ids, qty, cause, k);
    }
    forall id: nat | id < |s.batches| && id !in ids ensures Drain(s, ids, qty, cause).batches[id] == s.batches[id] {
      DrainFrame(s, ids, qty, cause, id);
    }
  }

  /** The log gains exactly the quantity drained, all under the given cause. */
  lemma {:induction false} DrainLogs(s: Tables, ids: seq<BatchId>, qty: int, cause: Cause, f: Movement -> int, select: Cause -> bool)
    requires Stocked(s, ids)
    requires forall m: Movement :: f(m) == if select(m.cause) then m.qtyOut else 0
    ensures Sum(Drain(s, ids, qty, cause).log, f)
         == Sum(s.log, f) + if select(cause) then Min(Max(qty, 0), Total(Shelf(s, ids))) else 0
    decreases |ids|
  {
    SumNonNegative(Shelf(s, ids), Same);
    if ids != [] && qty > 0 {
      var next, take := DrainHead(s, ids, qty, cause);
      DrainLogs(next, ids[1..], qty - take, cause, f, select);
      SumNonNegative(Shelf(next, ids[1..]), Same);
      assert Total(Shelf(s, ids)) == s.batches[ids[0]].available + Total(Shelf(next, ids[1..]));
      HeadLogs(s, next, ids[0], take, cause, f, select);
    }
  }

  lemma HeadLogs(s: Tables, next: Tables, id: BatchId, take: int, cause: Cause, f: Movement -> int, select: Cause -> bool)
    requires id < |s.batches| && next == (if take <= 0 then s else Issue(s, id, take, cause))
    requires forall m: Movement :: f(m) == if select(m.cause) then m.qtyOut else 0
    ensures Sum(next.log, f) == Sum(s.log, f) + if select(cause) then Max(take, 0) else 0
  {
    if take > 0 { SumAppend(s.log, Movement(cause, id, 0, take), f); }
  }

  lemma {:induction false} DrainKeepsBooks(s: Tables, ids: seq<BatchId>, qty: int, cause: Cause)
    requires Books(s) && InTable(s, ids)
    ensures KeepsBooks(s, Drain(s, ids, qty, cause))
    ensures cause.kind != DispatchOut ==> LeavesTrips(s, Drain(s, ids, qty, cause))
    decreases |ids|
  {
    if ids != [] && qty > 0 {
      var held := s.batches[ids[0]].available;
      if held <= 0 {
        DrainKeepsBooks(s, ids[1..], qty, cause);
      } else {
        IssueKeepsBooks(s, ids[0], Min(held, qty), cause);
        DrainKeepsBooks(Issue(s, ids[0], Min(held, qty), cause), ids[1..], qty - Min(held, qty), cause);
      }
    }
  }
}
