/** A retailer's advance wallet (advance-wallet.service.ts). Money is in integer paise. */
module Wallet {
  import opened Wrappers
  import opened Sums

  datatype TransactionType = AdvanceCredit | AdvanceUse | Refund | Adjustment

  /** 'payment_receipt', 'payment_receipt_cancel', or any other reference. */
  datatype Reference = PaymentReceipt(receipt: nat) | ReceiptCancel(receipt: nat) | OtherReference

  datatype Transaction = Transaction(kind: TransactionType, reference: Reference, debit: int, credit: int, running: int)

  datatype State = State(balance: int, log: seq<Transaction>)

  const NEW := State(0, [])

  datatype Step =
    | CreditReceipt(receipt: nat, amount: int)
    | ReverseReceipt(receipt: nat, amount: int)
    | AdjustWallet(kind: TransactionType, reference: Reference, debit: int, credit: int)

  function Post(w: State, kind: TransactionType, reference: Reference, debit: int, credit: int): Result<State>
  {
    var next := w.balance + credit - debit;
    if next < 0 then Err(BadRequest) else Ok(State(next, w.log + [Transaction(kind, reference, debit, credit, next)]))
  }

  predicate Has(w: State, kind: TransactionType, reference: Reference)
  {
    exists i :: 0 <= i < |w.log| && w.log[i].kind == kind && w.log[i].reference == reference
  }

  function Attempt(w: State, step: Step): Result<State>
  {
    match step
    case CreditReceipt(r, amount) =>
      if amount <= 0 || Has(w, AdvanceCredit, PaymentReceipt(r)) then Ok(w)
      else Post(w, AdvanceCredit, PaymentReceipt(r), 0, amount)
    case ReverseReceipt(r, amount) =>
      if amount <= 0 || Has(w, Adjustment, ReceiptCancel(r)) then Ok(w)
      else Post(w, Adjustment, ReceiptCancel(r), amount, 0)
    case AdjustWallet(kind, reference, debit, credit) =>
      if debit <= 0 && credit <= 0 then Err(BadRequest) else Post(w, kind, reference, debit, credit)
  }

  function Apply(w: State, step: Step): State
  {
    var r := Attempt(w, step);
    if r.Ok? then r.value else w
  }

  function Run(w: State, steps: seq<Step>): State
  {
    if steps == [] then w else Apply(Run(w, steps[..|steps| - 1]), steps[|steps| - 1])
  }

  class AdvanceWallet {
    var availableBalance: int
    var transactions: seq<Transaction>

    constructor ()
      ensures View() == NEW
    {
      availableBalance, transactions := 0, [];
    }

    function View(): State
      reads this
    {
      State(availableBalance, transactions)
    }

    method PostTransaction(kind: TransactionType, reference: Reference, debit: int, credit: int) returns (r: Result<()>)
      modifies this
      ensures var spec := Post(old(View()), kind, reference, debit, credit);
        && View() == (if spec.Ok? then spec.value else old(View()))
        && r == if spec.Ok? then Ok(()) else Err(spec.error)
    {
      var nextBalance := availableBalance + credit - debit;
      if nextBalance < 0 { return Err(BadRequest); }
      transactions := transactions + [Transaction(kind, reference, debit, credit, nextBalance)];
      availableBalance := nextBalance;
      return Ok(());
    }

    method CreditFromReceipt(receipt: nat, amount: int) returns (r: Result<()>)
      modifies this
      ensures View() == Apply(old(View()), CreditReceipt(receipt, amount))
      ensures r.Ok? <==> Attempt(old(View()), CreditReceipt(receipt, amount)).Ok?
      ensures r.Err? ==> r.error == BadRequest
    {
      if amount <= 0 { return Ok(()); }
      var existing := Find(AdvanceCredit, PaymentReceipt(receipt));
      if existing { return Ok(()); }
      r := PostTransaction(AdvanceCredit, PaymentReceipt(receipt), 0, amount);
    }

    method ReverseReceiptAdvance(receipt: nat, amount: int) returns (r: Result<()>)
      modifies this
      ensures View() == Apply(old(View()), ReverseReceipt(receipt, amount))
      ensures r.Ok? <==> Attempt(old(View()), ReverseReceipt(receipt, amount)).Ok?
      ensures r.Err? ==> r.error == BadRequest
    {
      if amount <= 0 { return Ok(()); }
      var existing := Find(Adjustment, ReceiptCancel(receipt));
      if existing { return Ok(()); }
      r := PostTransaction(Adjustment, ReceiptCancel(receipt), amount, 0);
    }

    method Find(kind: TransactionType, reference: Reference) returns (found: bool)
      ensures found <==> Has(View(), kind, reference)
    {
      for n := 0 to |transactions|
        invariant forall i :: 0 <= i < n ==> !(transactions[i].kind == kind && transactions[i].reference == reference)
      {
        if transactions[n].kind == kind && transactions[n].reference == reference { return true; }
      }
      return false;
    }

    method AdjustWallet(kind: TransactionType, reference: Reference, debit: int, credit: int) returns (r: Result<()>)
      modifies this
      ensures View() == Apply(old(View()), Step.AdjustWallet(kind, reference, debit, credit))
      ensures r.Ok? <==> (debit > 0 || credit > 0) && old(availableBalance) + credit - debit >= 0
      ensures r.Ok? ==>
        && availableBalance == old(availableBalance) + credit - debit
        && transactions == old(transactions) + [Transaction(kind, reference, debit, credit, availableBalance)]
      ensures r.Err? ==> r.error == BadRequest && View() == old(View())
    {
      if debit <= 0 && credit <= 0 { return Err(BadRequest); }
      r := PostTransaction(kind, reference, debit, credit);
    }
  }

  // ---------------------------------------------------------------- over whole runs

  function CreditOf(t: Transaction): int { t.credit }

  function DebitOf(t: Transaction): int { t.debit }

  /** Over any run the balance is what credits exceed debits by, is the last running balance, and is not
      negative. */
  lemma {:induction false} BalanceOverRuns(steps: seq<Step>)
    ensures var w := Run(NEW, steps);
      && w.balance == Sum(w.log, CreditOf) - Sum(w.log, DebitOf)
      && w.balance == (if w.log == [] then 0 else w.log[|w.log| - 1].running)
      && w.balance >= 0
  {
    if steps != [] {
      BalanceOverRuns(steps[..|steps| - 1]);
      var before, after := Run(NEW, steps[..|steps| - 1]), Run(NEW, steps);
      if after != before {
        SumAppend(before.log, after.log[|before.log|], CreditOf);
        SumAppend(before.log, after.log[|before.log|], DebitOf);
      }
    }
  }

  predicate Concerns(step: Step, reversal: bool, receipt: nat)
  {
    if reversal then step.ReverseReceipt? && step.receipt == receipt else step.CreditReceipt? && step.receipt == receipt
  }

  function Mark(reversal: bool, receipt: nat): (TransactionType, Reference)
  {
    if reversal then (Adjustment, ReceiptCancel(receipt)) else (AdvanceCredit, PaymentReceipt(receipt))
  }

  /** When a receipt's credit or reversal takes effect: for a positive amount, without a row of its mark,
      and, for a reversal, with a balance that covers it. */
  predicate TakesEffect(w: State, step: Step, reversal: bool, receipt: nat)
  {
    && Concerns(step, reversal, receipt)
    && step.amount > 0
    && !Has(w, Mark(reversal, receipt).0, Mark(reversal, receipt).1)
    && (reversal ==> w.balance >= step.amount)
  }

  /** How often a receipt's credit, or its reversal, takes effect. */
  function Effective(w: State, steps: seq<Step>, reversal: bool, receipt: nat): nat
  {
    if steps == [] then 0
    else
      var init, last := steps[..|steps| - 1], steps[|steps| - 1];
      Effective(w, init, reversal, receipt) + if TakesEffect(Run(w, init), last, reversal, receipt) then 1 else 0
  }

  /** In any run a call that takes effect moves the balance by its amount; any other leaves the wallet as it is. */
  lemma EffectOfCall(steps: seq<Step>, step: Step, reversal: bool, receipt: nat)
    requires Concerns(step, reversal, receipt)
    ensures var before, after := Run(NEW, steps), Apply(Run(NEW, steps), step);
      && (after != before <==> TakesEffect(before, step, reversal, receipt))
      && after.balance - before.balance
         == if TakesEffect(before, step, reversal, receipt) then (if reversal then -step.amount else step.amount) else 0
  {
    BalanceOverRuns(steps);
  }

  /** A receipt's credit, and its reversal, each take effect at most once, however often and in whatever
      order they are called. */
  lemma {:induction false} AtMostOnce(steps: seq<Step>, reversal: bool, receipt: nat)
    ensures Effective(NEW, steps, reversal, receipt) <= 1
    ensures Effective(NEW, steps, reversal, receipt) == 1 ==>
              Has(Run(NEW, steps), Mark(reversal, receipt).0, Mark(reversal, receipt).1)
  {
    if steps != [] {
      var init := steps[..|steps| - 1];
      AtMostOnce(init, reversal, receipt);
      var before, after := Run(NEW, init), Run(NEW, steps);
      var mark := Mark(reversal, receipt);
      if Has(before, mark.0, mark.1) {
        var i :| 0 <= i < |before.log| && before.log[i].kind == mark.0 && before.log[i].reference == mark.1;
        assert after.log[i] == before.log[i];
      } else if TakesEffect(before, steps[|steps| - 1], reversal, receipt) {
        EffectOfCall(init, steps[|steps| - 1], reversal, receipt);
        assert after.log[|before.log|].kind == mark.0;
      }
    }
  }

  /** What the steps of one receipt together did to the balance. */
  function ReceiptEffect(w: State, steps: seq<Step>, receipt: nat): int
  {
    if steps == [] then 0
    else
      var init, last := steps[..|steps| - 1], steps[|steps| - 1];
      ReceiptEffect(w, init, receipt)
      + if Concerns(last, false, receipt) || Concerns(last, true, receipt) then Run(w, steps).balance - Run(w, init).balance else 0
  }

  /** When all of a receipt's credits and reversals are for one amount, they leave that amount credited,
      debited or untouched; a credit and a reversal that both took effect net to zero. */
  lemma {:induction false} CreditThenReversalNets(steps: seq<Step>, receipt: nat, amount: int)
    requires forall i :: 0 <= i < |steps| && (Concerns(steps[i], false, receipt) || Concerns(steps[i], true, receipt)) ==>
               steps[i].amount == amount
    ensures ReceiptEffect(NEW, steps, receipt)
         == (if Effective(NEW, steps, false, receipt) == 1 then amount else 0)
          - (if Effective(NEW, steps, true, receipt) == 1 then amount else 0)
  {
    AtMostOnce(steps, false, receipt);
    AtMostOnce(steps, true, receipt);
    if steps != [] {
      var init, last := steps[..|steps| - 1], steps[|steps| - 1];
      AtMostOnce(init, false, receipt);
      AtMostOnce(init, true, receipt);
      CreditThenReversalNets(init, receipt, amount);
      if Concerns(last, false, receipt) { EffectOfCall(init, last, false, receipt); }
      if Concerns(last, true, receipt) { EffectOfCall(init, last, true, receipt); }
      assert last == steps[|steps| - 1];
    }
  }
}
