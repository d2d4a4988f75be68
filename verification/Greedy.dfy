/** Greedy filling in order: stock batches by earliest expiry, invoices by earliest due date. */
module Greedy {
  import opened Sums

  /** Takes from each capacity in turn until the amount is used up. */
  function Fill(caps: seq<int>, amount: int): (alloc: seq<int>)
    ensures |alloc| == |caps|
  {
    if caps == [] then []
    else
      var take := if amount > 0 then Min(amount, caps[0]) else 0;
      [take] + Fill(caps[1..], amount - take)
  }

  lemma FillStep(caps: seq<int>, n: nat, amount: int)
    requires n < |caps|
    ensures var take := if amount > 0 then Min(amount, caps[n]) else 0;
      Fill(caps[n..], amount) == [take] + Fill(caps[n + 1..], amount - take)
  {
    assert caps[n..][1..] == caps[n + 1..];
  }

  ghost predicate NonNegative(xs: seq<int>)
  {
    forall i :: 0 <= i < |xs| ==> xs[i] >= 0
  }

  ghost predicate Within(alloc: seq<int>, caps: seq<int>)
  {
    |alloc| == |caps| && forall i :: 0 <= i < |caps| ==> 0 <= alloc[i] <= caps[i]
  }

  /** Nothing is taken from a capacity while an earlier one has room left. */
  ghost predicate InOrder(alloc: seq<int>, caps: seq<int>)
    requires |alloc| == |caps|
  {
    forall i, j :: 0 <= i < j < |caps| && alloc[j] > 0 ==> alloc[i] == caps[i]
  }

  function Minus(caps: seq<int>, alloc: seq<int>): seq<int>
    requires |alloc| == |caps|
  {
    seq(|caps|, i requires 0 <= i < |caps| => caps[i] - alloc[i])
  }

  lemma {:induction false} FillNothing(caps: seq<int>, amount: int)
    requires amount <= 0
    ensures forall i :: 0 <= i < |caps| ==> Fill(caps, amount)[i] == 0
    ensures Total(Fill(caps, amount)) == 0
  {
    if caps != [] {
      FillNothing(caps[1..], amount);
      assert Fill(caps, amount)[1..] == Fill(caps[1..], amount);
    }
  }

  lemma {:induction false} FillIsGreedy(caps: seq<int>, amount: int)
    requires NonNegative(caps)
    ensures Within(Fill(caps, amount), caps)
    ensures InOrder(Fill(caps, amount), caps)
    ensures Total(Fill(caps, amount)) == Min(Max(amount, 0), Total(caps))
    ensures Total(caps) >= 0
  {
    FillTotal(caps, amount);
    FillWithin(caps, amount);
    FillInOrder(caps, amount);
  }

  lemma {:induction false} FillWithin(caps: seq<int>, amount: int)
    requires NonNegative(caps)
    ensures Within(Fill(caps, amount), caps)
  {
    if caps != [] {
      FillWithin(caps[1..], amount - if amount > 0 then Min(amount, caps[0]) else 0);
    }
  }

  lemma {:induction false} FillInOrder(caps: seq<int>, amount: int)
    requires NonNegative(caps)
    ensures InOrder(Fill(caps, amount), caps)
  {
    if caps != [] {
      var take := if amount > 0 then Min(amount, caps[0]) else 0;
      FillInOrder(caps[1..], amount - take);
      if take < caps[0] { FillNothing(caps[1..], amount - take); }
    }
  }

  lemma {:induction false} FillTotal(caps: seq<int>, amount: int)
    requires NonNegative(caps)
    ensures Total(Fill(caps, amount)) == Min(Max(amount, 0), Total(caps)) && Total(caps) >= 0
  {
    if caps != [] {
      var take := if amount > 0 then Min(amount, caps[0]) else 0;
      assert Fill(caps, amount)[1..] == Fill(caps[1..], amount - take);
      FillTotal(caps[1..], amount - take);
    }
  }

  /** Greedy filling is the only allocation within the capacities that fills them in order. */
  lemma {:induction false} FillUnique(caps: seq<int>, amount: int, alloc: seq<int>)
    requires NonNegative(caps)
    requires Within(alloc, caps) && InOrder(alloc, caps)
    requires Total(alloc) == Min(Max(amount, 0), Total(caps))
    ensures alloc == Fill(caps, amount)
  {
    if caps != [] {
      var take := FirstShare(caps, amount, alloc);
      FillUnique(caps[1..], amount - take, alloc[1..]);
      assert alloc == [take] + alloc[1..];
    }
  }

  /** The first share is forced, and what is left is again in order. */
  lemma FirstShare(caps: seq<int>, amount: int, alloc: seq<int>) returns (take: int)
    requires caps != [] && NonNegative(caps)
    requires Within(alloc, caps) && InOrder(alloc, caps)
    requires Total(alloc) == Min(Max(amount, 0), Total(caps))
    ensures take == if amount > 0 then Min(amount, caps[0]) else 0
    ensures alloc[0] == take && Within(alloc[1..], caps[1..]) && InOrder(alloc[1..], caps[1..])
    ensures Total(alloc[1..]) == Min(Max(amount - take, 0), Total(caps[1..]))
  {
    take := if amount > 0 then Min(amount, caps[0]) else 0;
    SumNonNegative(alloc[1..], Same);
    WithinTotal(alloc[1..], caps[1..]);
    if alloc[0] < caps[0] {
      assert forall j :: 0 < j < |caps| ==> alloc[j] == 0;
      SumZero(alloc[1..], Same);
    }
  }

  lemma {:induction false} WithinTotal(alloc: seq<int>, caps: seq<int>)
    requires Within(alloc, caps)
    ensures Total(alloc) <= Total(caps)
  {
    if caps != [] { WithinTotal(alloc[1..], caps[1..]); }
  }

  /** Filling p and then q from what p left is filling p + q at once. */
  lemma {:induction false} FillTwice(caps: seq<int>, p: int, q: int)
    requires NonNegative(caps) && p >= 0 && q >= 0
    ensures forall i :: 0 <= i < |caps| ==>
              Fill(caps, p + q)[i] == Fill(caps, p)[i] + Fill(Minus(caps, Fill(caps, p)), q)[i]
  {
    if caps != [] {
      var first := Fill(caps, p);
      var t := Min(p, caps[0]);
      var left := Minus(caps, first);
      var u := if q > 0 then Min(q, left[0]) else 0;
      assert first[1..] == Fill(caps[1..], p - t) by { if p == 0 { } }
      assert left[1..] == Minus(caps[1..], first[1..]);
      assert left[0] == caps[0] - t;
      FillTwice(caps[1..], p - t, q - u);
    }
  }
}
