/** Previewing how a payment spreads over a retailer's open invoices (payment-allocation.service.ts).
    Money is in integer paise. */
module PaymentAllocation {
  import opened Sums
  import opened Greedy

  datatype Mode = Fifo | Manual | Advance

  /** An open invoice, in due-date order. */
  datatype Invoice = Invoice(id: nat, outstanding: int)

  datatype Proposal = Proposal(invoice: nat, amount: int)

  datatype Preview = Preview(totalOutstanding: int, proposals: seq<Proposal>, remaining: int, projectedOutstanding: int)

  function Outstanding(invoices: seq<Invoice>): seq<int>
  {
    seq(|invoices|, i requires 0 <= i < |invoices| => invoices[i].outstanding)
  }

  /** What each invoice is allocated. */
  function Allocation(invoices: seq<Invoice>, amount: int): (alloc: seq<int>)
    ensures |alloc| == |invoices|
  {
    Fill(Outstanding(invoices), amount)
  }

  /** The rows shown: invoices with something allocated. */
  function Shown(invoices: seq<Invoice>, alloc: seq<int>): seq<Proposal>
    requires |alloc| == |invoices|
  {
    if invoices == [] then []
    else (if alloc[0] > 0 then [Proposal(invoices[0].id, alloc[0])] else []) + Shown(invoices[1..], alloc[1..])
  }

  /** The query's `outstandingAmount: { gt: 0 }`. */
  function Open(invoices: seq<Invoice>): seq<Invoice>
  {
    if invoices == [] then []
    else (if invoices[0].outstanding > 0 then [invoices[0]] else []) + Open(invoices[1..])
  }

  function PreviewOf(invoices: seq<Invoice>, amount: int): Preview
  {
    var total, alloc := Total(Outstanding(invoices)), Allocation(invoices, amount);
    var remaining := amount - Total(alloc);
    Preview(total, Shown(invoices, alloc), remaining, Max(total - (amount - remaining), 0))
  }

  method PreviewPayment(invoices: seq<Invoice>, amount: int, mode: Mode) returns (p: Preview)
    ensures mode == Advance ==> p == Preview(Total(Outstanding(invoices)), [], amount, Total(Outstanding(invoices)))
    ensures mode != Advance ==> p == PreviewOf(invoices, amount)
  {
    var totalOutstanding := Total(Outstanding(invoices));
    if mode == Advance { return Preview(totalOutstanding, [], amount, totalOutstanding); }
    var rows, remaining := AllocateInOrder(Outstanding(invoices), amount);
    return Preview(totalOutstanding, Shown(invoices, rows), remaining, Max(totalOutstanding - (amount - remaining), 0));
  }

  /** The mapping over invoices that uses up `remaining` as it goes. */
  method AllocateInOrder(outstanding: seq<int>, amount: int) returns (rows: seq<int>, remaining: int)
    ensures rows == Fill(outstanding, amount) && remaining == amount - Total(rows)
  {
    ghost var goal := Fill(outstanding, amount);
    rows, remaining := [], amount;
    assert outstanding[0..] == outstanding && [] + goal == goal;
    for n := 0 to |outstanding|
      invariant rows + Fill(outstanding[n..], remaining) == goal
      invariant remaining == amount - Total(rows)
    {
      var allocate := if remaining > 0 then Min(remaining, outstanding[n]) else 0;
      FillStep(outstanding, n, remaining);
      SumAppend(rows, allocate, Same);
      rows := rows + [allocate];
      remaining := remaining - allocate;
    }
    assert rows + [] == rows;
  }

  ghost predicate AllOpen(invoices: seq<Invoice>)
  {
    forall i :: 0 <= i < |invoices| ==> invoices[i].outstanding > 0
  }

  function AmountOf(p: Proposal): int { p.amount }

  lemma {:induction false} ShownSum(invoices: seq<Invoice>, alloc: seq<int>)
    requires |alloc| == |invoices| && forall i :: 0 <= i < |alloc| ==> alloc[i] >= 0
    ensures Sum(Shown(invoices, alloc), AmountOf) == Total(alloc)
  {
    if invoices != [] {
      ShownSum(invoices[1..], alloc[1..]);
      var rest := Shown(invoices[1..], alloc[1..]);
      if alloc[0] > 0 { assert ([Proposal(invoices[0].id, alloc[0])] + rest)[1..] == rest; } else { assert [] + rest == rest; }
    }
  }

  /** Nothing is lost: what is shown as proposed and what remains make up the amount. What remains is the
      amount beyond the total owed, and what stays owed is the total beyond the amount, exactly for
      payments that are not negative. */
  lemma PreviewConserves(invoices: seq<Invoice>, amount: int)
    requires AllOpen(invoices)
    ensures var p := PreviewOf(invoices, amount);
      && Sum(p.proposals, AmountOf) + p.remaining == amount
      && (amount >= 0 <==> p.remaining == Max(amount - p.totalOutstanding, 0))
      && (amount >= 0 <==> p.projectedOutstanding == Max(p.totalOutstanding - amount, 0))
  {
    var caps := Outstanding(invoices);
    FillIsGreedy(caps, amount);
    ShownSum(invoices, Allocation(invoices, amount));
  }

  /** The preview is the one allocation that never exceeds an invoice, spends what it can, and pays an
      invoice only once every earlier one is paid in full. */
  lemma PreviewIsTheFifoAllocation(invoices: seq<Invoice>, amount: int, alloc: seq<int>)
    requires AllOpen(invoices)
    ensures var caps := Outstanding(invoices);
      alloc == Allocation(invoices, amount)
      <==> Within(alloc, caps) && InOrder(alloc, caps) && Total(alloc) == Min(Max(amount, 0), Total(caps))
  {
    var caps := Outstanding(invoices);
    FillIsGreedy(caps, amount);
    if Within(alloc, caps) && InOrder(alloc, caps) && Total(alloc) == Min(Max(amount, 0), Total(caps)) {
      FillUnique(caps, amount, alloc);
    }
  }

  /** The invoices once a payment is allocated. */
  function Residual(invoices: seq<Invoice>, amount: int): seq<Invoice>
  {
    seq(|invoices|, i requires 0 <= i < |invoices| =>
          invoices[i].(outstanding := invoices[i].outstanding - Allocation(invoices, amount)[i]))
  }

  /** Dropping settled invoices from the query changes no preview. */
  lemma {:induction false} OpenPreview(invoices: seq<Invoice>, amount: int)
    requires NonNegative(Outstanding(invoices))
    ensures PreviewOf(Open(invoices), amount) == PreviewOf(invoices, amount)
  {
    OpenAllocation(invoices, amount);
  }

  lemma {:induction false} OpenAllocation(invoices: seq<Invoice>, amount: int)
    requires NonNegative(Outstanding(invoices))
    ensures Shown(Open(invoices), Allocation(Open(invoices), amount)) == Shown(invoices, Allocation(invoices, amount))
    ensures Total(Allocation(Open(invoices), amount)) == Total(Allocation(invoices, amount))
    ensures Total(Outstanding(Open(invoices))) == Total(Outstanding(invoices))
  {
    if invoices != [] {
      var rest, head := invoices[1..], invoices[0];
      var take := if amount > 0 then Min(amount, head.outstanding) else 0;
      assert Outstanding(invoices)[1..] == Outstanding(rest);
      assert Allocation(invoices, amount)[1..] == Allocation(rest, amount - take);
      forall i | 0 <= i < |rest| ensures Outstanding(rest)[i] >= 0 { assert Outstanding(rest)[i] == Outstanding(invoices)[i + 1]; }
      OpenAllocation(rest, amount - take);
      assert head.outstanding == Outstanding(invoices)[0];
      if head.outstanding > 0 {
        assert Open(invoices) == [head] + Open(rest);
        assert Open(invoices)[1..] == Open(rest);
        assert Outstanding(Open(invoices))[1..] == Outstanding(Open(rest));
        assert Allocation(Open(invoices), amount)[1..] == Allocation(Open(rest), amount - take);
      } else {
        assert Open(invoices) == Open(rest);
        assert [] + Shown(rest, Allocation(rest, amount)) == Shown(rest, Allocation(rest, amount));
      }
    }
  }

  /** Paying a and then b on what is still open is paying a + b: invoice by invoice, in what remains
      unallocated, and in what stays owed. */
  lemma PayingTwice(invoices: seq<Invoice>, a: nat, b: nat)
    requires AllOpen(invoices)
    ensures var after := Residual(invoices, a);
      var later := PreviewOf(Open(after), b);
      && later == PreviewOf(after, b)
      && (forall i :: 0 <= i < |invoices| ==>
            Allocation(invoices, a + b)[i] == Allocation(invoices, a)[i] + Allocation(after, b)[i])
      && PreviewOf(invoices, a + b).remaining == PreviewOf(invoices, a).remaining + later.remaining
      && PreviewOf(invoices, a + b).projectedOutstanding == later.projectedOutstanding
  {
    var caps, after := Outstanding(invoices), Residual(invoices, a);
    ResidualOwed(invoices, a);
    FillTwice(caps, a, b);
    OpenPreview(after, b);
    TotalMinus(caps, Fill(caps, a));
    Remainder(invoices, a);
    Remainder(invoices, a + b);
    Remainder(after, b);
  }

  lemma ResidualOwed(invoices: seq<Invoice>, amount: nat)
    requires AllOpen(invoices)
    ensures NonNegative(Outstanding(invoices)) && NonNegative(Outstanding(Residual(invoices, amount)))
    ensures Outstanding(Residual(invoices, amount)) == Minus(Outstanding(invoices), Allocation(invoices, amount))
  {
    FillWithin(Outstanding(invoices), amount);
  }

  lemma Remainder(invoices: seq<Invoice>, amount: nat)
    requires NonNegative(Outstanding(invoices))
    ensures var p := PreviewOf(invoices, amount);
      && p.remaining == Max(amount - Total(Outstanding(invoices)), 0)
      && p.projectedOutstanding == Max(Total(Outstanding(invoices)) - amount, 0)
      && Total(Allocation(invoices, amount)) == Min(amount, Total(Outstanding(invoices)))
  {
    FillIsGreedy(Outstanding(invoices), amount);
  }

  lemma {:induction false} TotalMinus(caps: seq<int>, alloc: seq<int>)
    requires |alloc| == |caps|
    ensures Total(Minus(caps, alloc)) == Total(caps) - Total(alloc)
  {
    if caps != [] {
      TotalMinus(caps[1..], alloc[1..]);
      assert Minus(caps, alloc)[1..] == Minus(caps[1..], alloc[1..]);
    }
  }

  /** What the proposals show for an invoice, and what it was allocated. */
  function ShownFor(id: nat): Proposal -> int
  {
    (p: Proposal) => if p.invoice == id then p.amount else 0
  }

  /** What invoices of an id were allocated. */
  function AllocatedTo(invoices: seq<Invoice>, alloc: seq<int>, id: nat): int
    requires |alloc| == |invoices|
  {
    if invoices == [] then 0
    else (if invoices[0].id == id then alloc[0] else 0) + AllocatedTo(invoices[1..], alloc[1..], id)
  }

  /** Each proposal shows something, and under each invoice's id exactly what that invoice is allocated. */
  lemma {:induction false} ShownByInvoice(invoices: seq<Invoice>, alloc: seq<int>, id: nat)
    requires |alloc| == |invoices| && forall i :: 0 <= i < |alloc| ==> alloc[i] >= 0
    ensures Sum(Shown(invoices, alloc), ShownFor(id)) == AllocatedTo(invoices, alloc, id)
    ensures forall k :: 0 <= k < |Shown(invoices, alloc)| ==> Shown(invoices, alloc)[k].amount > 0
  {
    if invoices != [] {
      ShownByInvoice(invoices[1..], alloc[1..], id);
      var rest := Shown(invoices[1..], alloc[1..]);
      if alloc[0] > 0 { assert ([Proposal(invoices[0].id, alloc[0])] + rest)[1..] == rest; } else { assert [] + rest == rest; }
    }
  }
}
