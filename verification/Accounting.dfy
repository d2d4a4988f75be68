/** Double-entry postings, reversals and the reports computed from them (accounting.service.ts).
    Money is in integer paise; an entry's id is its position in the journal. */
module Accounting {
  import opened Wrappers
  import opened Sums
  import opened Tally

  type AccountId = nat

  datatype AccountType = Asset | Liability | Equity | Income | Expense | OtherType

  datatype Line = Line(account: AccountId, debit: int, credit: int, retailer: Option<nat>, supplier: Option<nat>)

  datatype EntryStatus = Posted | Reversed

  datatype Reference = SalesInvoice(invoice: nat) | PaymentReceipt(receipt: nat) | Reversal(entry: nat) | OtherDocument(document: nat)

  datatype Entry = Entry(postingDate: int, reference: Reference, status: EntryStatus, lines: seq<Line>)

  /** The journal, and which entry journaled each invoice and receipt. */
  datatype Journal = Journal(entries: seq<Entry>, invoices: map<nat, nat>, receipts: map<nat, nat>)

  const BLANK := Journal([], map[], map[])

  function Debit(l: Line): int { l.debit }

  function Credit(l: Line): int { l.credit }

  function Net(l: Line): int { l.debit - l.credit }

  // ---------------------------------------------------------------- postings

  predicate Balanced(lines: seq<Line>)
  {
    Sum(lines, Debit) == Sum(lines, Credit)
  }

  function CreateEntry(j: Journal, date: int, reference: Reference, lines: seq<Line>): Result<Journal>
  {
    if lines == [] || !Balanced(lines) then Err(BadRequest)
    else Ok(j.(entries := j.entries + [Entry(date, reference, Posted, lines)]))
  }

  datatype Invoice = Invoice(id: nat, retailer: nat, date: int, total: int)

  function InvoiceLines(invoice: Invoice, receivable: AccountId, sales: AccountId): seq<Line>
  {
    [Line(receivable, invoice.total, 0, Some(invoice.retailer), None),
     Line(sales, 0, invoice.total, Some(invoice.retailer), None)]
  }

  /** An invoice is journaled once; posting it again only returns its entry. */
  function PostInvoice(j: Journal, invoice: Invoice, receivable: Option<AccountId>, sales: Option<AccountId>): Result<Journal>
  {
    if invoice.id in j.invoices then Ok(j)
    else if receivable.None? || sales.None? then Err(NotFound)
    else
      var r := CreateEntry(j, invoice.date, SalesInvoice(invoice.id), InvoiceLines(invoice, receivable.value, sales.value));
      if r.Err? then r else Ok(r.value.(invoices := j.invoices[invoice.id := |j.entries|]))
  }

  datatype Receipt = Receipt(id: nat, retailer: Option<nat>, supplier: Option<nat>, date: int, amount: int, inbound: bool)

  function ReceiptLines(receipt: Receipt, funds: AccountId, counter: AccountId): seq<Line>
  {
    var debit, credit := if receipt.inbound then funds else counter, if receipt.inbound then counter else funds;
    [Line(debit, receipt.amount, 0, receipt.retailer, receipt.supplier),
     Line(credit, 0, receipt.amount, receipt.retailer, receipt.supplier)]
  }

  function PostReceipt(j: Journal, receipt: Receipt, funds: Option<AccountId>, counter: Option<AccountId>): Result<Journal>
  {
    if receipt.id in j.receipts then Ok(j)
    else if funds.None? || counter.None? then Err(NotFound)
    else
      var r := CreateEntry(j, receipt.date, PaymentReceipt(receipt.id), ReceiptLines(receipt, funds.value, counter.value));
      if r.Err? then r else Ok(r.value.(receipts := j.receipts[receipt.id := |j.entries|]))
  }

  function Swapped(lines: seq<Line>): seq<Line>
  {
    seq(|lines|, i requires 0 <= i < |lines| => lines[i].(debit := lines[i].credit, credit := lines[i].debit))
  }

  function Reverse(j: Journal, id: nat, today: int): Result<Journal>
  {
    if id >= |j.entries| then Err(NotFound)
    else if j.entries[id].status == Reversed then Err(BadRequest)
    else
      var r := CreateEntry(j, today, Reversal(id), Swapped(j.entries[id].lines));
      if r.Err? then r
      else Ok(r.value.(entries := r.value.entries[id := r.value.entries[id].(status := Reversed)]))
  }

  datatype Step =
    | InvoicePosted(invoice: Invoice, receivable: Option<AccountId>, sales: Option<AccountId>)
    | ReceiptPosted(receipt: Receipt, funds: Option<AccountId>, counter: Option<AccountId>)
    | EntryPosted(date: int, document: nat, lines: seq<Line>)
    | EntryReversed(entry: nat, today: int)

  function Attempt(j: Journal, step: Step): Result<Journal>
  {
    match step
    case InvoicePosted(invoice, receivable, sales) => PostInvoice(j, invoice, receivable, sales)
    case ReceiptPosted(receipt, funds, counter) => PostReceipt(j, receipt, funds, counter)
    case EntryPosted(date, document, lines) => CreateEntry(j, date, OtherDocument(document), lines)
    case EntryReversed(id, today) => Reverse(j, id, today)
  }

  function Apply(j: Journal, step: Step): Journal
  {
    var r := Attempt(j, step);
    if r.Ok? then r.value else j
  }

  function Run(j: Journal, steps: seq<Step>): Journal
  {
    if steps == [] then j else Apply(Run(j, steps[..|steps| - 1]), steps[|steps| - 1])
  }

  // ---------------------------------------------------------------- queries

  /** A date filter; None leaves that side open. */
  datatype Period = Period(from: Option<int>, to: Option<int>)

  predicate Within(p: Period, date: int)
  {
    (p.from.Some? ==> p.from.value <= date) && (p.to.Some? ==> date <= p.to.value)
  }

  predicate Counts(p: Period, e: Entry)
  {
    e.status == Posted && Within(p, e.postingDate)
  }

  /** The lines of the posted entries of a period: what every report starts from. */
  function PostedLines(entries: seq<Entry>, p: Period): seq<Line>
  {
    if entries == [] then []
    else
      var last := entries[|entries| - 1];
      PostedLines(entries[..|entries| - 1], p) + if Counts(p, last) then last.lines else []
  }

  /** Weighs a posted entry of the period by the sum over its lines. */
  function PerPosted(p: Period, f: Line -> int): Entry -> int
  {
    (e: Entry) => if Counts(p, e) then Sum(e.lines, f) else 0
  }

  lemma {:induction false} PostedLinesSum(entries: seq<Entry>, p: Period, f: Line -> int)
    ensures Sum(PostedLines(entries, p), f) == Sum(entries, PerPosted(p, f))
  {
    if entries != [] {
      var init, last := entries[..|entries| - 1], entries[|entries| - 1];
      PostedLinesSum(init, p, f);
      assert entries == init + [last];
      SumAppend(init, last, PerPosted(p, f));
      SumConcat(PostedLines(init, p), if Counts(p, last) then last.lines else [], f);
    }
  }

  // ---------------------------------------------------------------- reports

  datatype Totals = Totals(debit: int, credit: int)

  const NO_TOTALS := Totals(0, 0)

  function AddLine(t: Totals, l: Line): Totals { Totals(t.debit + l.debit, t.credit + l.credit) }

  function AccountOf(l: Line): AccountId { l.account }

  function Balance(t: Totals): int { t.debit - t.credit }

  function DebitOf(t: Totals): int { t.debit }

  function CreditOf(t: Totals): int { t.credit }

  type AccountRows = seq<Row<AccountId, Totals>>

  function TrialBalance(lines: seq<Line>): AccountRows
  {
    Group(lines, AccountOf, NO_TOTALS, AddLine)
  }

  function Typed(types: map<AccountId, AccountType>, allowed: set<AccountType>): AccountId -> bool
  {
    (a: AccountId) => (if a in types then types[a] else OtherType) in allowed
  }

  function Selected(lines: seq<Line>, select: AccountId -> bool): seq<Line>
  {
    if lines == [] then []
    else (if select(lines[0].account) then [lines[0]] else []) + Selected(lines[1..], select)
  }

  /** `groupByAccount`: the rows of the lines whose account is of an allowed type. */
  function GroupByAccount(lines: seq<Line>, types: map<AccountId, AccountType>, allowed: set<AccountType>): AccountRows
  {
    Group(Selected(lines, Typed(types, allowed)), AccountOf, NO_TOTALS, AddLine)
  }

  function TotalOf(rows: AccountRows, types: map<AccountId, AccountType>, kind: AccountType, w: Totals -> int): int
  {
    Sum(rows, Weighted(Typed(types, {kind}), w))
  }

  function Abs(x: int): int { if x < 0 then -x else x }

  function AbsBalance(t: Totals): int { Abs(Balance(t)) }

  function CreditBalance(t: Totals): int { t.credit - t.debit }

  datatype ProfitLoss = ProfitLoss(totalIncome: int, totalExpense: int, netProfit: int)

  function ProfitLossOf(lines: seq<Line>, types: map<AccountId, AccountType>): ProfitLoss
  {
    var rows := GroupByAccount(lines, types, {Income, Expense});
    var income, expense := TotalOf(rows, types, Income, CreditBalance), TotalOf(rows, types, Expense, Balance);
    ProfitLoss(income, expense, income - expense)
  }

  datatype BalanceSheet = BalanceSheet(rows: AccountRows, totalAssets: int, totalLiabilities: int, totalEquity: int)

  function BalanceSheetOf(lines: seq<Line>, types: map<AccountId, AccountType>): BalanceSheet
  {
    var rows := GroupByAccount(lines, types, {Asset, Liability, Equity});
    BalanceSheet(rows, TotalOf(rows, types, Asset, Balance), TotalOf(rows, types, Liability, AbsBalance),
                 TotalOf(rows, types, Equity, AbsBalance))
  }

  /** `buildLedgerTransactions`: the running balance after each line. */
  function RunningBalances(lines: seq<Line>): seq<int>
  {
    seq(|lines|, i requires 0 <= i < |lines| => Sum(lines[..i + 1], Net))
  }

  // ---------------------------------------------------------------- the service

  class AccountingService {
    var entries: seq<Entry>
    var invoiceEntry: map<nat, nat>
    var receiptEntry: map<nat, nat>

    constructor ()
      ensures View() == BLANK
    {
      entries, invoiceEntry, receiptEntry := [], map[], map[];
    }

    function View(): Journal
      reads this
    {
      Journal(entries, invoiceEntry, receiptEntry)
    }

    method CreateJournalEntry(date: int, reference: Reference, lines: seq<Line>) returns (r: Result<nat>)
      modifies this`entries
      ensures var spec := CreateEntry(old(View()), date, reference, lines);
        && r == (if spec.Ok? then Ok(|old(entries)|) else Err(spec.error))
        && View() == if spec.Ok? then spec.value else old(View())
    {
      if lines == [] { return Err(BadRequest); }
      var totalDebit, totalCredit := 0, 0;
      for n := 0 to |lines|
        invariant View() == old(View())
        invariant totalDebit == Sum(lines[..n], Debit) && totalCredit == Sum(lines[..n], Credit)
      {
        assert lines[..n + 1] == lines[..n] + [lines[n]];
        SumAppend(lines[..n], lines[n], Debit);
        SumAppend(lines[..n], lines[n], Credit);
        totalDebit, totalCredit := totalDebit + lines[n].debit, totalCredit + lines[n].credit;
      }
      assert lines[..|lines|] == lines;
      if totalDebit != totalCredit { return Err(BadRequest); }
      r := Ok(|entries|);
      entries := entries + [Entry(date, reference, Posted, lines)];
    }

    method PostSalesInvoice(invoice: Invoice, receivable: Option<AccountId>, sales: Option<AccountId>) returns (r: Result<nat>)
      modifies this
      ensures var spec := PostInvoice(old(View()), invoice, receivable, sales);
        && View() == (if spec.Ok? then spec.value else old(View()))
        && r == if spec.Ok? then Ok(spec.value.invoices[invoice.id]) else Err(spec.error)
      ensures invoice.id in old(invoiceEntry) ==> r == Ok(old(invoiceEntry)[invoice.id]) && View() == old(View())
      ensures r.Ok? && invoice.id !in old(invoiceEntry) ==>
        && receivable.Some? && sales.Some? && r.value == |old(entries)|
        && entries == old(entries) + [Entry(invoice.date, SalesInvoice(invoice.id), Posted, [
             Line(receivable.value, invoice.total, 0, Some(invoice.retailer), None),
             Line(sales.value, 0, invoice.total, Some(invoice.retailer), None)])]
    {
      if invoice.id in invoiceEntry { return Ok(invoiceEntry[invoice.id]); }
      if receivable.None? || sales.None? { return Err(NotFound); }
      r := CreateJournalEntry(invoice.date, SalesInvoice(invoice.id), InvoiceLines(invoice, receivable.value, sales.value));
      if r.Ok? { invoiceEntry := invoiceEntry[invoice.id := r.value]; }
    }

    method PostPaymentReceipt(receipt: Receipt, funds: Option<AccountId>, counter: Option<AccountId>) returns (r: Result<nat>)
      modifies this
      ensures var spec := PostReceipt(old(View()), receipt, funds, counter);
        && View() == (if spec.Ok? then spec.value else old(View()))
        && r == if spec.Ok? then Ok(spec.value.receipts[receipt.id]) else Err(spec.error)
      ensures receipt.id in old(receiptEntry) ==> r == Ok(old(receiptEntry)[receipt.id]) && View() == old(View())
      ensures r.Ok? && receipt.id !in old(receiptEntry) ==>
        && funds.Some? && counter.Some? && r.value == |old(entries)|
        && entries == old(entries) + [Entry(receipt.date, PaymentReceipt(receipt.id), Posted, [
             Line(if receipt.inbound then funds.value else counter.value, receipt.amount, 0, receipt.retailer, receipt.supplier),
             Line(if receipt.inbound then counter.value else funds.value, 0, receipt.amount, receipt.retailer, receipt.supplier)])]
    {
      if receipt.id in receiptEntry { return Ok(receiptEntry[receipt.id]); }
      if funds.None? || counter.None? { return Err(NotFound); }
      r := CreateJournalEntry(receipt.date, PaymentReceipt(receipt.id), ReceiptLines(receipt, funds.value, counter.value));
      if r.Ok? { receiptEntry := receiptEntry[receipt.id := r.value]; }
    }

    method ReverseJournalEntry(id: nat, today: int) returns (r: Result<nat>)
      modifies this
      ensures var spec := Reverse(old(View()), id, today);
        && View() == (if spec.Ok? then spec.value else old(View()))
        && r == if spec.Ok? then Ok(|old(entries)|) else Err(spec.error)
      ensures r.Ok? ==> id < |old(entries)| && old(entries)[id].status == Posted && |entries| == |old(entries)| + 1
      ensures r.Ok? ==>
        var original, reversal := old(entries)[id], entries[r.value];
        && entries[id] == original.(status := Reversed)
        && reversal.postingDate == today && reversal.reference == Reversal(id) && reversal.status == Posted
        && |reversal.lines| == |original.lines|
        && forall k :: 0 <= k < |original.lines| ==>
             var l := original.lines[k];
             reversal.lines[k] == Line(l.account, l.credit, l.debit, l.retailer, l.supplier)
    {
      if id >= |entries| { return Err(NotFound); }
      if entries[id].status == Reversed { return Err(BadRequest); }
      r := CreateJournalEntry(today, Reversal(id), Swapped(entries[id].lines));
      if r.Ok? { entries := entries[id := entries[id].(status := Reversed)]; }
    }

    method GetTrialBalance(asOf: Option<int>) returns (rows: AccountRows)
      ensures rows == TrialBalance(PostedLines(entries, Period(None, asOf)))
    {
      var lines := PostedLines(entries, Period(None, asOf));
      rows := [];
      for n := 0 to |lines|
        invariant rows == TrialBalance(lines[..n])
      {
        var current := Lookup(rows, lines[n].account, NO_TOTALS);
        GroupNext(lines[..n], lines[n], AccountOf, NO_TOTALS, AddLine);
        assert lines[..n + 1] == lines[..n] + [lines[n]];
        rows := Upsert(rows, lines[n].account, Totals(current.debit + lines[n].debit, current.credit + lines[n].credit));
      }
      assert lines[..|lines|] == lines;
    }

    method Grouped(lines: seq<Line>, types: map<AccountId, AccountType>, allowed: set<AccountType>) returns (rows: AccountRows)
      ensures rows == GroupByAccount(lines, types, allowed)
    {
      rows := [];
      ghost var select := Typed(types, allowed);
      for n := 0 to |lines|
        invariant rows == GroupByAccount(lines[..n], types, allowed)
      {
        var line := lines[n];
        SelectedNext(lines, n, select);
        assert Selected(lines[..n], select) + [] == Selected(lines[..n], select);
        if (if line.account in types then types[line.account] else OtherType) in allowed {
          var current := Lookup(rows, line.account, NO_TOTALS);
          GroupNext(Selected(lines[..n], select), line, AccountOf, NO_TOTALS, AddLine);
          rows := Upsert(rows, line.account, Totals(current.debit + line.debit, current.credit + line.credit));
        }
      }
      assert lines[..|lines|] == lines;
    }

    method GetProfitLoss(types: map<AccountId, AccountType>, p: Period) returns (report: ProfitLoss)
      ensures report == ProfitLossOf(PostedLines(entries, p), types)
    {
      var rows := Grouped(PostedLines(entries, p), types, {Income, Expense});
      var income, expense := TotalOf(rows, types, Income, CreditBalance), TotalOf(rows, types, Expense, Balance);
      return ProfitLoss(income, expense, income - expense);
    }

    method GetBalanceSheet(types: map<AccountId, AccountType>, asOf: Option<int>) returns (report: BalanceSheet)
      ensures report == BalanceSheetOf(PostedLines(entries, Period(None, asOf)), types)
    {
      var rows := Grouped(PostedLines(entries, Period(None, asOf)), types, {Asset, Liability, Equity});
      return BalanceSheet(rows, TotalOf(rows, types, Asset, Balance), TotalOf(rows, types, Liability, AbsBalance),
                          TotalOf(rows, types, Equity, AbsBalance));
    }

    method BuildLedgerTransactions(lines: seq<Line>) returns (balances: seq<int>)
      ensures balances == RunningBalances(lines)
    {
      var runningBalance := 0;
      balances := [];
      for n := 0 to |lines|
        invariant runningBalance == Sum(lines[..n], Net)
        invariant |balances| == n && forall i :: 0 <= i < n ==> balances[i] == Sum(lines[..i + 1], Net)
      {
        assert lines[..n + 1] == lines[..n] + [lines[n]];
        SumAppend(lines[..n], lines[n], Net);
        runningBalance := runningBalance + lines[n].debit - lines[n].credit;
        balances := balances + [runningBalance];
      }
    }
  }

  lemma {:induction false} SelectedNext(lines: seq<Line>, n: nat, select: AccountId -> bool)
    requires n < |lines|
    ensures Selected(lines[..n + 1], select)
         == Selected(lines[..n], select) + if select(lines[n].account) then [lines[n]] else []
  {
    if n == 0 {
      assert lines[..1][1..] == [];
    } else {
      SelectedNext(lines[1..], n - 1, select);
      assert lines[..n + 1][1..] == lines[1..][..n] && lines[..n][1..] == lines[1..][..n - 1];
    }
  }
}
