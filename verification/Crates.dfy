/** The crate ledger and its daily snapshots (crates.service.ts). */
module Crates {
  import opened Wrappers
  import opened Sums

  datatype CrateKind = Issue | Return | Damage | Missing | CrateAdjustment

  datatype CrateTransaction = CrateTransaction(retailer: Option<nat>, crateType: nat, kind: CrateKind, quantity: nat, day: int)

  /** A snapshot's key: its day, retailer and crate type. */
  datatype Key = Key(day: int, retailer: nat, crateType: nat)

  datatype Snapshot = Snapshot(issued: int, returned: int, damaged: int, missing: int, closing: int)

  datatype State = State(log: seq<CrateTransaction>, snapshots: map<Key, Snapshot>)

  const EMPTY := State([], map[])

  datatype Step =
    | Record(transaction: CrateTransaction)
    | Recalculate(retailers: seq<nat>, crateTypes: seq<nat>, day: int)

  // ---------------------------------------------------------------- specification

  function Counted(k: Key, kind: CrateKind): CrateTransaction -> int
  {
    (t: CrateTransaction) =>
      if t.retailer == Some(k.retailer) && t.crateType == k.crateType && t.day <= k.day && t.kind == kind then t.quantity else 0
  }

  /** The ledger's total of a kind up to the end of the key's day. */
  function Ledger(log: seq<CrateTransaction>, k: Key, kind: CrateKind): int
  {
    Sum(log, Counted(k, kind))
  }

  function SnapshotOf(log: seq<CrateTransaction>, k: Key): Snapshot
  {
    var issued, returned, damaged, missing := Ledger(log, k, Issue), Ledger(log, k, Return), Ledger(log, k, Damage), Ledger(log, k, Missing);
    Snapshot(issued, returned, damaged, missing, Max(issued - returned - damaged - missing, 0))
  }

  function Synced(s: State, k: Key): State
  {
    s.(snapshots := s.snapshots[k := SnapshotOf(s.log, k)])
  }

  function SyncedAll(s: State, keys: seq<Key>): State
    decreases |keys|
  {
    if keys == [] then s else SyncedAll(Synced(s, keys[0]), keys[1..])
  }

  function TypeKeys(retailer: nat, crateTypes: seq<nat>, day: int): seq<Key>
  {
    seq(|crateTypes|, i requires 0 <= i < |crateTypes| => Key(day, retailer, crateTypes[i]))
  }

  function AllKeys(retailers: seq<nat>, crateTypes: seq<nat>, day: int): seq<Key>
  {
    if retailers == [] then [] else TypeKeys(retailers[0], crateTypes, day) + AllKeys(retailers[1..], crateTypes, day)
  }

  function Recorded(s: State, t: CrateTransaction): State
  {
    var logged := s.(log := s.log + [t]);
    if t.retailer.Some? then Synced(logged, Key(t.day, t.retailer.value, t.crateType)) else logged
  }

  function Apply(s: State, step: Step): State
  {
    match step
    case Record(t) => Recorded(s, t)
    case Recalculate(retailers, crateTypes, day) => SyncedAll(s, AllKeys(retailers, crateTypes, day))
  }

  function Run(s: State, steps: seq<Step>): State
  {
    if steps == [] then s else Apply(Run(s, steps[..|steps| - 1]), steps[|steps| - 1])
  }

  // ---------------------------------------------------------------- the service

  class CratesService {
    var log: seq<CrateTransaction>
    var snapshots: map<Key, Snapshot>

    constructor ()
      ensures View() == EMPTY
    {
      log, snapshots := [], map[];
    }

    function View(): State
      reads this
    {
      State(log, snapshots)
    }

    method CreateTransaction(t: CrateTransaction)
      modifies this
      ensures View() == Recorded(old(View()), t)
    {
      log := log + [t];
      if t.retailer.Some? { SyncSnapshotForDate(Key(t.day, t.retailer.value, t.crateType)); }
    }

    method SyncSnapshotForDate(k: Key)
      modifies this`snapshots
      ensures View() == Synced(old(View()), k)
    {
      var issuedQty, returnedQty, damagedQty, missingQty := 0, 0, 0, 0;
      for n := 0 to |log|
        invariant View() == old(View())
        invariant issuedQty == Ledger(log[..n], k, Issue) && returnedQty == Ledger(log[..n], k, Return)
        invariant damagedQty == Ledger(log[..n], k, Damage) && missingQty == Ledger(log[..n], k, Missing)
      {
        var t := log[n];
        assert log[..n + 1] == log[..n] + [t];
        forall kind: CrateKind ensures Ledger(log[..n + 1], k, kind) == Ledger(log[..n], k, kind) + Counted(k, kind)(t) {
          SumAppend(log[..n], t, Counted(k, kind));
        }
        if t.retailer == Some(k.retailer) && t.crateType == k.crateType && t.day <= k.day {
          if t.kind == Issue { issuedQty := issuedQty + t.quantity; }
          else if t.kind == Return { returnedQty := returnedQty + t.quantity; }
          else if t.kind == Damage { damagedQty := damagedQty + t.quantity; }
          else if t.kind == Missing { missingQty := missingQty + t.quantity; }
        }
      }
      assert log[..|log|] == log;
      var closingQty := Max(issuedQty - returnedQty - damagedQty - missingQty, 0);
      snapshots := snapshots[k := Snapshot(issuedQty, returnedQty, damagedQty, missingQty, closingQty)];
    }

    method RecalculateBalances(retailers: seq<nat>, crateTypes: seq<nat>, day: int)
      modifies this
      ensures View() == Apply(old(View()), Recalculate(retailers, crateTypes, day))
    {
      ghost var keys := AllKeys(retailers, crateTypes, day);
      ghost var goal := SyncedAll(View(), keys);
      for r := 0 to |retailers|
        invariant SyncedAll(View(), AllKeys(retailers[r..], crateTypes, day)) == goal
      {
        ghost var rest := AllKeys(retailers[r + 1..], crateTypes, day);
        ghost var mine := TypeKeys(retailers[r], crateTypes, day);
        assert retailers[r..][1..] == retailers[r + 1..];
        assert mine[0..] == mine;
        for c := 0 to |crateTypes|
          invariant SyncedAll(View(), mine[c..] + rest) == goal
        {
          assert (mine[c..] + rest)[1..] == mine[c + 1..] + rest;
          SyncSnapshotForDate(Key(day, retailers[r], crateTypes[c]));
        }
        assert mine[|crateTypes|..] + rest == rest;
      }
    }
  }

  // ---------------------------------------------------------------- over whole runs

  function Stored(s: Snapshot, kind: CrateKind): int
  {
    match kind
    case Issue => s.issued
    case Return => s.returned
    case Damage => s.damaged
    case Missing => s.missing
    case CrateAdjustment => 0
  }

  predicate Syncs(step: Step, k: Key)
  {
    match step
    case Record(t) => t.retailer == Some(k.retailer) && t.crateType == k.crateType && t.day == k.day
    case Recalculate(retailers, crateTypes, day) => day == k.day && k.retailer in retailers && k.crateType in crateTypes
  }

  /** What was recorded late for a snapshot: on an earlier day, since it was last computed. */
  function Late(steps: seq<Step>, k: Key, kind: CrateKind): nat
  {
    if steps == [] then 0
    else
      var last := steps[|steps| - 1];
      if Syncs(last, k) then 0
      else Late(steps[..|steps| - 1], k, kind) + if last.Record? then Counted(k, kind)(last.transaction) else 0
  }

  lemma {:induction false} SyncedAllEffect(s: State, keys: seq<Key>, k: Key)
    ensures var after := SyncedAll(s, keys);
      && after.log == s.log
      && (k in keys ==> k in after.snapshots && after.snapshots[k] == SnapshotOf(s.log, k))
      && (k !in keys ==> (k in after.snapshots <==> k in s.snapshots) && (k in s.snapshots ==> after.snapshots[k] == s.snapshots[k]))
    decreases |keys|
  {
    if keys != [] {
      SyncedAllEffect(Synced(s, keys[0]), keys[1..], k);
      assert k in keys <==> k == keys[0] || k in keys[1..];
    }
  }

  lemma {:induction false} KeyListed(retailers: seq<nat>, crateTypes: seq<nat>, day: int, k: Key)
    ensures k in AllKeys(retailers, crateTypes, day) <==> day == k.day && k.retailer in retailers && k.crateType in crateTypes
  {
    if retailers != [] {
      KeyListed(retailers[1..], crateTypes, day, k);
      assert k.retailer in retailers <==> k.retailer == retailers[0] || k.retailer in retailers[1..];
      var keys := TypeKeys(retailers[0], crateTypes, day);
      if k.crateType in crateTypes && k.day == day && k.retailer == retailers[0] {
        var i :| 0 <= i < |crateTypes| && crateTypes[i] == k.crateType;
        assert keys[i] == k;
      }
    }
  }

  /** Recomputing a snapshot makes it exact. */
  lemma SyncRestores(s: State, step: Step, k: Key)
    requires Syncs(step, k)
    ensures k in Apply(s, step).snapshots && Apply(s, step).snapshots[k] == SnapshotOf(Apply(s, step).log, k)
  {
    if step.Recalculate? {
      KeyListed(step.retailers, step.crateTypes, step.day, k);
      SyncedAllEffect(s, AllKeys(step.retailers, step.crateTypes, step.day), k);
    }
  }

  lemma OtherStep(s: State, step: Step, k: Key, kind: CrateKind)
    requires !Syncs(step, k)
    ensures var after := Apply(s, step);
      && (k in after.snapshots <==> k in s.snapshots)
      && (k in s.snapshots ==> after.snapshots[k] == s.snapshots[k])
      && Ledger(after.log, k, kind) == Ledger(s.log, k, kind) + if step.Record? then Counted(k, kind)(step.transaction) else 0
  {
    if step.Recalculate? {
      KeyListed(step.retailers, step.crateTypes, step.day, k);
      SyncedAllEffect(s, AllKeys(step.retailers, step.crateTypes, step.day), k);
    } else {
      SumAppend(s.log, step.transaction, Counted(k, kind));
    }
  }

  /** Over any run, in any order of days, a stored counter falls short of the ledger by exactly what was
      recorded late; so it never exceeds the ledger, and is exact when nothing came late. */
  lemma {:induction false} SnapshotLag(steps: seq<Step>, k: Key, kind: CrateKind)
    requires kind != CrateAdjustment && k in Run(EMPTY, steps).snapshots
    ensures var s := Run(EMPTY, steps);
      && Stored(s.snapshots[k], kind) + Late(steps, k, kind) == Ledger(s.log, k, kind)
      && (Stored(s.snapshots[k], kind) == Ledger(s.log, k, kind) <==> Late(steps, k, kind) == 0)
  {
    var init, last := steps[..|steps| - 1], steps[|steps| - 1];
    if Syncs(last, k) {
      SyncRestores(Run(EMPTY, init), last, k);
    } else {
      OtherStep(Run(EMPTY, init), last, k, kind);
      SnapshotLag(init, k, kind);
    }
  }

  function DayOf(step: Step): int
  {
    if step.Record? then step.transaction.day else step.day
  }

  ghost predicate InDayOrder(steps: seq<Step>)
  {
    forall i, j :: 0 <= i < j < |steps| && steps[j].Record? ==> DayOf(steps[i]) <= DayOf(steps[j])
  }

  lemma {:induction false} NothingLate(steps: seq<Step>, k: Key, kind: CrateKind)
    requires InDayOrder(steps) && k in Run(EMPTY, steps).snapshots
    ensures Late(steps, k, kind) == 0 && exists i :: 0 <= i < |steps| && Syncs(steps[i], k)
  {
    var init, last := steps[..|steps| - 1], steps[|steps| - 1];
    if !Syncs(last, k) {
      OtherStep(Run(EMPTY, init), last, k, kind);
      NothingLate(init, k, kind);
      var i :| 0 <= i < |init| && Syncs(init[i], k);
      assert steps[i] == init[i] && DayOf(steps[i]) == k.day;
      assert last.Record? ==> DayOf(last) >= k.day;
    } else {
      assert Syncs(steps[|steps| - 1], k);
    }
  }

  /** If every transaction comes on a day no earlier than the transactions and recalculations before it,
      every stored snapshot is exact. */
  lemma InOrderSnapshotsAreExact(steps: seq<Step>, k: Key)
    requires InDayOrder(steps) && k in Run(EMPTY, steps).snapshots
    ensures Run(EMPTY, steps).snapshots[k] == SnapshotOf(Run(EMPTY, steps).log, k)
  {
    forall kind: CrateKind | kind != CrateAdjustment
      ensures Stored(Run(EMPTY, steps).snapshots[k], kind) == Ledger(Run(EMPTY, steps).log, k, kind)
    {
      SnapshotLag(steps, k, kind);
      NothingLate(steps, k, kind);
    }
    ClosingFollows(steps, k);
    var s := Run(EMPTY, steps).snapshots[k];
    assert s.issued == Stored(s, Issue) && s.returned == Stored(s, Return)
        && s.damaged == Stored(s, Damage) && s.missing == Stored(s, Missing);
  }

  lemma {:induction false} ClosingFollows(steps: seq<Step>, k: Key)
    requires k in Run(EMPTY, steps).snapshots
    ensures var s := Run(EMPTY, steps).snapshots[k]; s.closing == Max(s.issued - s.returned - s.damaged - s.missing, 0)
  {
    var init, last := steps[..|steps| - 1], steps[|steps| - 1];
    if Syncs(last, k) {
      SyncRestores(Run(EMPTY, init), last, k);
    } else {
      OtherStep(Run(EMPTY, init), last, k, Issue);
      ClosingFollows(init, k);
    }
  }

  /** As it happens: a crate issued on an earlier day is recorded later, and the stored snapshot misses it. */
  lemma LateCrateMissed()
    ensures var first := CrateTransaction(Some(0), 0, Issue, 1, 2);
      var steps := [Record(first), Record(first.(day := 1))];
      var k := Key(2, 0, 0);
      && k in Run(EMPTY, steps).snapshots
      && Run(EMPTY, steps).snapshots[k].issued < Ledger(Run(EMPTY, steps).log, k, Issue)
  {
    var first := CrateTransaction(Some(0), 0, Issue, 1, 2);
    var second := first.(day := 1);
    var steps, k := [Record(first), Record(second)], Key(2, 0, 0);
    assert steps[..1] == [Record(first)] && [Record(first)][..0] == [];
    assert Run(EMPTY, [Record(first)]) == Apply(EMPTY, Record(first));
    var one := Run(EMPTY, [Record(first)]);
    assert Run(EMPTY, steps) == Apply(one, Record(second));
    assert k in one.snapshots;
    assert Late([Record(first)], k, Issue) == 0;
    assert Late(steps, k, Issue) == Counted(k, Issue)(second) == 1;
    SnapshotLag(steps, k, Issue);
  }

  /** Weighs what was recorded on one day. */
  function RecordedOn(day: int, retailer: nat, crateType: nat, kind: CrateKind): CrateTransaction -> int
  {
    (t: CrateTransaction) =>
      if t.retailer == Some(retailer) && t.crateType == crateType && t.day == day && t.kind == kind then t.quantity else 0
  }

  /** The ledger grows from one day to the next by what was recorded on that day, from nothing before the first. */
  lemma LedgerByDay(log: seq<CrateTransaction>, k: Key, kind: CrateKind)
    ensures Ledger(log, k, kind)
         == Ledger(log, k.(day := k.day - 1), kind) + Sum(log, RecordedOn(k.day, k.retailer, k.crateType, kind))
    ensures (forall i :: 0 <= i < |log| ==> log[i].day > k.day) ==> Ledger(log, k, kind) == 0
  {
    if forall i :: 0 <= i < |log| ==> log[i].day > k.day { SumZero(log, Counted(k, kind)); }
    SumSplit(log, Counted(k, kind), Counted(k.(day := k.day - 1), kind), RecordedOn(k.day, k.retailer, k.crateType, kind));
  }
}
