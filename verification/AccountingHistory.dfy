/** The books over whole histories of postings and reversals, and how the reports agree. */
module AccountingHistory {
  import opened Wrappers
  import opened Sums
  import opened Tally
  import opened Accounting

  // ---------------------------------------------------------------- every run keeps the journal sound

  /** Counts the reversals of an entry. */
  function Reverses(id: nat): Entry -> int
  {
    (e: Entry) => if e.reference == Reversal(id) then 1 else 0
  }

  function Journals(reference: Reference): Entry -> int
  {
    (e: Entry) => if e.reference == reference then 1 else 0
  }

  ghost predicate SoundEntry(entries: seq<Entry>, id: nat)
    requires id < |entries|
  {
    var e := entries[id];
    && e.lines != [] && Balanced(e.lines)
    && Sum(entries, Reverses(id)) == (if e.status == Reversed then 1 else 0)
    && (e.reference.Reversal? ==> e.reference.entry < id && e.lines == Swapped(entries[e.reference.entry].lines))
  }

  /** A stored entry is sound, and nothing reverses an entry that is not stored. */
  ghost predicate EntryAt(entries: seq<Entry>, id: nat)
  {
    if id < |entries| then SoundEntry(entries, id) else Sum(entries, Reverses(id)) == 0
  }

  /** A document is journaled once if it is on record, by the entry on record, and never otherwise. */
  ghost predicate Journaled(entries: seq<Entry>, record: map<nat, nat>, document: nat, reference: Reference)
  {
    && Sum(entries, Journals(reference)) == (if document in record then 1 else 0)
    && (document in record ==> record[document] < |entries| && entries[record[document]].reference == reference)
  }

  ghost predicate Sound(j: Journal)
  {
    && (forall id: nat :: EntryAt(j.entries, id))
    && (forall i: nat :: Journaled(j.entries, j.invoices, i, SalesInvoice(i)))
    && (forall i: nat :: Journaled(j.entries, j.receipts, i, PaymentReceipt(i)))
  }

  lemma {:induction false} SwappedSums(lines: seq<Line>)
    ensures Sum(Swapped(lines), Debit) == Sum(lines, Credit)
    ensures Sum(Swapped(lines), Credit) == Sum(lines, Debit)
  {
    if lines != [] {
      SwappedSums(lines[1..]);
      assert Swapped(lines)[1..] == Swapped(lines[1..]);
    }
  }

  lemma TwoLines(a: Line, b: Line)
    ensures Balanced([a, b]) <==> a.debit + b.debit == a.credit + b.credit
  {
    assert [a, b][1..] == [b];
    assert Sum([a, b], Debit) == a.debit + Sum([b], Debit) && Sum([a, b], Credit) == a.credit + Sum([b], Credit);
    assert Sum([b], Debit) == b.debit + Sum([b][1..], Debit) && Sum([b], Credit) == b.credit + Sum([b][1..], Credit);
  }

  /** Adding one balanced entry, and recording it if it names an invoice or receipt not on record. */
  lemma RecordKeepsSound(j: Journal, e: Entry, after: Journal)
    requires Sound(j) && e.lines != [] && Balanced(e.lines) && e.status == Posted && !e.reference.Reversal?
    requires e.reference.SalesInvoice? ==> e.reference.invoice !in j.invoices
    requires e.reference.PaymentReceipt? ==> e.reference.receipt !in j.receipts
    requires after.entries == j.entries + [e]
    requires after.invoices == if e.reference.SalesInvoice? then j.invoices[e.reference.invoice := |j.entries|] else j.invoices
    requires after.receipts == if e.reference.PaymentReceipt? then j.receipts[e.reference.receipt := |j.entries|] else j.receipts
    ensures Sound(after)
  {
    forall id: nat ensures EntryAt(after.entries, id) {
      SumAppend(j.entries, e, Reverses(id));
      assert EntryAt(j.entries, id);
    }
    forall i: nat ensures Journaled(after.entries, after.invoices, i, SalesInvoice(i)) {
      SumAppend(j.entries, e, Journals(SalesInvoice(i)));
      assert Journaled(j.entries, j.invoices, i, SalesInvoice(i));
    }
    forall i: nat ensures Journaled(after.entries, after.receipts, i, PaymentReceipt(i)) {
      SumAppend(j.entries, e, Journals(PaymentReceipt(i)));
      assert Journaled(j.entries, j.receipts, i, PaymentReceipt(i));
    }
  }

  /** How a reversal changes what entries count. */
  lemma ReversedCounts(entries: seq<Entry>, id: nat, e: Entry, f: Entry -> int)
    requires id < |entries| && f(entries[id].(status := Reversed)) == f(entries[id])
    ensures Sum((entries + [e])[id := entries[id].(status := Reversed)], f) == Sum(entries, f) + f(e)
  {
    SumAppend(entries, e, f);
    SumUpdate(entries + [e], id, entries[id].(status := Reversed), f);
  }

  lemma ReverseKeepsSound(j: Journal, id: nat, today: int)
    requires Sound(j) && id < |j.entries| && j.entries[id].status == Posted
    ensures Reverse(j, id, today).Ok? && Sound(Reverse(j, id, today).value)
  {
    var original := j.entries[id];
    assert EntryAt(j.entries, id);
    SwappedSums(original.lines);
    ReversedSound(j, id, Entry(today, Reversal(id), Posted, Swapped(original.lines)));
  }

  lemma ReversedSound(j: Journal, id: nat, e: Entry)
    requires Sound(j) && id < |j.entries| && j.entries[id].status == Posted
    requires e.reference == Reversal(id) && e.status == Posted && e.lines == Swapped(j.entries[id].lines)
    requires e.lines != [] && Balanced(e.lines)
    ensures Sound(j.(entries := (j.entries + [e])[id := j.entries[id].(status := Reversed)]))
  {
    var after := (j.entries + [e])[id := j.entries[id].(status := Reversed)];
    forall other: nat ensures EntryAt(after, other) {
      ReversedCounts(j.entries, id, e, Reverses(other));
      assert EntryAt(j.entries, other);
    }
    forall i: nat ensures Journaled(after, j.invoices, i, SalesInvoice(i)) {
      ReversedCounts(j.entries, id, e, Journals(SalesInvoice(i)));
      assert Journaled(j.entries, j.invoices, i, SalesInvoice(i));
    }
    forall i: nat ensures Journaled(after, j.receipts, i, PaymentReceipt(i)) {
      ReversedCounts(j.entries, id, e, Journals(PaymentReceipt(i)));
      assert Journaled(j.entries, j.receipts, i, PaymentReceipt(i));
    }
  }

  lemma InvoiceKeepsSound(j: Journal, invoice: Invoice, receivable: Option<AccountId>, sales: Option<AccountId>)
    requires Sound(j) && invoice.id !in j.invoices && PostInvoice(j, invoice, receivable, sales).Ok?
    ensures Sound(PostInvoice(j, invoice, receivable, sales).value)
  {
    var lines := InvoiceLines(invoice, receivable.value, sales.value);
    RecordKeepsSound(j, Entry(invoice.date, SalesInvoice(invoice.id), Posted, lines), PostInvoice(j, invoice, receivable, sales).value);
  }

  lemma ReceiptKeepsSound(j: Journal, receipt: Receipt, funds: Option<AccountId>, counter: Option<AccountId>)
    requires Sound(j) && receipt.id !in j.receipts && PostReceipt(j, receipt, funds, counter).Ok?
    ensures Sound(PostReceipt(j, receipt, funds, counter).value)
  {
    var lines := ReceiptLines(receipt, funds.value, counter.value);
    RecordKeepsSound(j, Entry(receipt.date, PaymentReceipt(receipt.id), Posted, lines), PostReceipt(j, receipt, funds, counter).value);
  }

  lemma StepKeepsSound(j: Journal, step: Step)
    requires Sound(j)
    ensures Sound(Apply(j, step))
  {
    if Attempt(j, step).Ok? {
      match step
      case EntryReversed(id, today) => ReverseKeepsSound(j, id, today);
      case EntryPosted(date, document, lines) => 
        RecordKeepsSound(j, Entry(date, OtherDocument(document), Posted, lines), Apply(j, step));
      case InvoicePosted(invoice, receivable, sales) =>
        if invoice.id !in j.invoices { InvoiceKeepsSound(j, invoice, receivable, sales); }
      case ReceiptPosted(receipt, funds, counter) =>
        if receipt.id !in j.receipts { ReceiptKeepsSound(j, receipt, funds, counter); }
    }
  }

  /** Over any run: every entry is balanced; each invoice and receipt is journaled at most once, by the
      entry on record, which names it; an entry is reversed exactly when one entry, with its lines swapped, reverses it. */
  lemma {:induction false} JournalOverRuns(steps: seq<Step>)
    ensures Sound(Run(BLANK, steps))
  {
    if steps != [] {
      JournalOverRuns(steps[..|steps| - 1]);
      StepKeepsSound(Run(BLANK, steps[..|steps| - 1]), steps[|steps| - 1]);
    }
  }

  /** An invoice can be posted exactly when it is on record or both accounts are found: its two lines
      balance whatever the total. */
  lemma InvoicePostsExactly(j: Journal, invoice: Invoice, receivable: Option<nat>, sales: Option<nat>)
    ensures PostInvoice(j, invoice, receivable, sales).Ok?
       <==> invoice.id in j.invoices || (receivable.Some? && sales.Some?)
  {
    if receivable.Some? && sales.Some? {
      var lines := InvoiceLines(invoice, receivable.value, sales.value);
      TwoLines(lines[0], lines[1]);
    }
  }

  /** The same for a receipt, whichever way the money goes. */
  lemma ReceiptPostsExactly(j: Journal, receipt: Receipt, funds: Option<nat>, counter: Option<nat>)
    ensures PostReceipt(j, receipt, funds, counter).Ok?
       <==> receipt.id in j.receipts || (funds.Some? && counter.Some?)
  {
    if funds.Some? && counter.Some? {
      var lines := ReceiptLines(receipt, funds.value, counter.value);
      TwoLines(lines[0], lines[1]);
    }
  }

  // ---------------------------------------------------------------- the reports agree

  function Of(select: AccountId -> bool, f: Line -> int): Line -> int
  {
    Where(select, AccountOf, f)
  }

  /** The posted lines of any run net to zero in every period. */
  lemma PostedNetsToZero(steps: seq<Step>, p: Period)
    ensures var lines := PostedLines(Run(BLANK, steps).entries, p); Sum(lines, Debit) == Sum(lines, Credit)
  {
    var entries := Run(BLANK, steps).entries;
    JournalOverRuns(steps);
    PostedLinesSum(entries, p, Debit);
    PostedLinesSum(entries, p, Credit);
    forall id: nat | id < |entries| ensures PerPosted(p, Debit)(entries[id]) == PerPosted(p, Credit)(entries[id]) {
      assert EntryAt(entries, id);
    }
    SumAgree(entries, PerPosted(p, Debit), PerPosted(p, Credit));
  }

  /** The trial balance of any run's posted entries balances at every cut-off. */
  lemma TrialBalanceBalances(steps: seq<Step>, asOf: Option<int>)
    ensures var rows := TrialBalance(PostedLines(Run(BLANK, steps).entries, Period(None, asOf)));
      Sum(rows, Weighted(Any<AccountId>(), DebitOf)) == Sum(rows, Weighted(Any<AccountId>(), CreditOf))
  {
    var lines := PostedLines(Run(BLANK, steps).entries, Period(None, asOf));
    PostedNetsToZero(steps, Period(None, asOf));
    GroupSum(lines, AccountOf, NO_TOTALS, AddLine, Any<AccountId>(), DebitOf, Debit);
    GroupSum(lines, AccountOf, NO_TOTALS, AddLine, Any<AccountId>(), CreditOf, Credit);
    SumAgree(lines, Of(Any<AccountId>(), Debit), Debit);
    SumAgree(lines, Of(Any<AccountId>(), Credit), Credit);
  }

  /** A weighing of totals that adds up line by line. */
  ghost predicate Weighs(w: Totals -> int, f: Line -> int)
  {
    w(NO_TOTALS) == 0 && forall t, l :: w(AddLine(t, l)) == w(t) + f(l)
  }

  lemma BalanceWeighs()
    ensures Weighs(Balance, Net) && Weighs(CreditBalance, CreditNet) && Weighs(DebitOf, Debit) && Weighs(CreditOf, Credit)
  {
  }

  /** A trial-balance row holds exactly its account's lines. */
  lemma TrialBalanceRow(lines: seq<Line>, account: nat)
    ensures Balance(Lookup(TrialBalance(lines), account, NO_TOTALS)) == Sum(lines, Of(Is(account), Net))
  {
    BalanceWeighs();
    RowBy(lines, account, Balance, Net);
  }

  lemma RowBy(lines: seq<Line>, account: nat, w: Totals -> int, f: Line -> int)
    requires Weighs(w, f)
    ensures w(Lookup(TrialBalance(lines), account, NO_TOTALS)) == Sum(lines, Of(Is(account), f))
  {
    GroupLookup(lines, AccountOf, NO_TOTALS, AddLine, account, w, f);
    SumAgree(lines, Where(Is(account), AccountOf, f), Of(Is(account), f));
  }

  lemma {:induction false} SelectedSum(lines: seq<Line>, select: AccountId -> bool, narrower: AccountId -> bool, f: Line -> int)
    requires forall a: nat :: narrower(a) ==> select(a)
    ensures Sum(Selected(lines, select), Of(narrower, f)) == Sum(lines, Of(narrower, f))
  {
    if lines != [] {
      SelectedSum(lines[1..], select, narrower, f);
      if select(lines[0].account) {
        assert Selected(lines, select)[1..] == Selected(lines[1..], select);
      } else {
        assert [] + Selected(lines[1..], select) == Selected(lines[1..], select);
      }
    }
  }

  function CreditNet(l: Line): int { l.credit - l.debit }

  /** A report's total for a type is the net of the lines on that type's accounts. */
  lemma TypeTotal(lines: seq<Line>, types: map<nat, AccountType>, allowed: set<AccountType>, kind: AccountType)
    requires kind in allowed
    ensures TotalOf(GroupByAccount(lines, types, allowed), types, kind, Balance) == Sum(lines, Of(Typed(types, {kind}), Net))
    ensures TotalOf(GroupByAccount(lines, types, allowed), types, kind, CreditBalance) == -Sum(lines, Of(Typed(types, {kind}), Net))
  {
    BalanceWeighs();
    TypeTotalBy(lines, types, allowed, kind, Balance, Net);
    TypeTotalBy(lines, types, allowed, kind, CreditBalance, CreditNet);
    NegatedSum(lines, Typed(types, {kind}));
  }

  lemma TypeTotalBy(lines: seq<Line>, types: map<nat, AccountType>, allowed: set<AccountType>, kind: AccountType,
      w: Totals -> int, f: Line -> int)
    requires kind in allowed && Weighs(w, f)
    ensures TotalOf(GroupByAccount(lines, types, allowed), types, kind, w) == Sum(lines, Of(Typed(types, {kind}), f))
  {
    GroupSum(Selected(lines, Typed(types, allowed)), AccountOf, NO_TOTALS, AddLine, Typed(types, {kind}), w, f);
    SelectedSum(lines, Typed(types, allowed), Typed(types, {kind}), f);
  }

  lemma {:induction false} NegatedSum(lines: seq<Line>, select: AccountId -> bool)
    ensures Sum(lines, Of(select, CreditNet)) == -Sum(lines, Of(select, Net))
  {
    if lines != [] {
      NegatedSum(lines[1..], select);
      assert AccountOf(lines[0]) == lines[0].account && CreditNet(lines[0]) == -Net(lines[0]);
      assert Of(select, CreditNet)(lines[0]) == -Of(select, Net)(lines[0]);
    }
  }

  /** What a line puts on accounts of a type. */
  function NetOn(types: map<AccountId, AccountType>, kind: AccountType): Line -> int
  {
    Of(Typed(types, {kind}), Net)
  }

  lemma LineHasOneType(l: Line, types: map<nat, AccountType>)
    ensures Net(l) == NetOn(types, Asset)(l) + NetOn(types, Liability)(l) + NetOn(types, Equity)(l)
                    + NetOn(types, Income)(l) + NetOn(types, Expense)(l) + NetOn(types, OtherType)(l)
  {
    var kind := if l.account in types then types[l.account] else OtherType;
    assert forall k: AccountType :: Typed(types, {k})(l.account) <==> k == kind;
  }

  /** Each line's account has one of the six types. */
  lemma {:induction false} NetByType(lines: seq<Line>, types: map<nat, AccountType>)
    ensures Sum(lines, Debit) - Sum(lines, Credit)
         == Sum(lines, NetOn(types, Asset)) + Sum(lines, NetOn(types, Liability)) + Sum(lines, NetOn(types, Equity))
          + Sum(lines, NetOn(types, Income)) + Sum(lines, NetOn(types, Expense)) + Sum(lines, NetOn(types, OtherType))
  {
    if lines != [] {
      LineHasOneType(lines[0], types);
      NetByType(lines[1..], types);
    }
  }

  /** What posted lines put on accounts of none of the five types. */
  function Unclassified(lines: seq<Line>, types: map<AccountId, AccountType>): int
  {
    Sum(lines, NetOn(types, OtherType))
  }

  /** The accounting equation: without a from-date, net profit is what asset, liability and equity balances
      come to, exactly when accounts of none of the five types net to zero. */
  lemma AccountingEquation(steps: seq<Step>, asOf: Option<int>, types: map<nat, AccountType>)
    ensures var lines := PostedLines(Run(BLANK, steps).entries, Period(None, asOf));
      var sheet := BalanceSheetOf(lines, types);
      var balances := TotalOf(sheet.rows, types, Asset, Balance) + TotalOf(sheet.rows, types, Liability, Balance)
                    + TotalOf(sheet.rows, types, Equity, Balance);
      && ProfitLossOf(lines, types).netProfit == balances + Unclassified(lines, types)
      && (ProfitLossOf(lines, types).netProfit == balances <==> Unclassified(lines, types) == 0)
  {
    var lines := PostedLines(Run(BLANK, steps).entries, Period(None, asOf));
    PostedNetsToZero(steps, Period(None, asOf));
    NetByType(lines, types);
    TypeTotal(lines, types, {Income, Expense}, Income);
    TypeTotal(lines, types, {Income, Expense}, Expense);
    TypeTotal(lines, types, {Asset, Liability, Equity}, Asset);
    TypeTotal(lines, types, {Asset, Liability, Equity}, Liability);
    TypeTotal(lines, types, {Asset, Liability, Equity}, Equity);
  }

  /** What a group adds to a total of absolute balances beyond its credit balance. */
  function DebitSide(t: Totals): int { Max(Balance(t), 0) }

  ghost predicate NoDebitBalance(rows: seq<Row<nat, Totals>>, types: map<nat, AccountType>, kind: AccountType)
  {
    forall i :: 0 <= i < |rows| && Typed(types, {kind})(rows[i].key) ==> Balance(rows[i].value) <= 0
  }

  lemma {:induction false} AbsoluteTotal(rows: seq<Row<nat, Totals>>, types: map<nat, AccountType>, kind: AccountType)
    ensures TotalOf(rows, types, kind, AbsBalance) == 2 * TotalOf(rows, types, kind, DebitSide) - TotalOf(rows, types, kind, Balance)
  {
    if rows != [] {
      AbsoluteTotal(rows[1..], types, kind);
      var t := rows[0].value;
      assert AbsBalance(t) == 2 * DebitSide(t) - Balance(t);
    }
  }

  lemma {:induction false} DebitSideTotal(rows: seq<Row<nat, Totals>>, types: map<nat, AccountType>, kind: AccountType)
    ensures TotalOf(rows, types, kind, DebitSide) >= 0
    ensures TotalOf(rows, types, kind, DebitSide) == 0 <==> NoDebitBalance(rows, types, kind)
  {
    if rows != [] {
      DebitSideTotal(rows[1..], types, kind);
      assert DebitSide(rows[0].value) >= 0;
      assert forall i :: 0 < i < |rows| ==> rows[i] == rows[1..][i - 1];
      assert forall i :: 0 <= i < |rows[1..]| ==> rows[1..][i] == rows[i + 1];
    }
  }

  /** The printed balance sheet adds up, assets against liabilities, equity and profit, exactly when no
      liability or equity account stands in debit: such a balance is shown without its sign. */
  lemma BalanceSheetAddsUp(steps: seq<Step>, asOf: Option<int>, types: map<nat, AccountType>)
    requires Unclassified(PostedLines(Run(BLANK, steps).entries, Period(None, asOf)), types) == 0
    ensures var lines := PostedLines(Run(BLANK, steps).entries, Period(None, asOf));
      var sheet := BalanceSheetOf(lines, types);
      (sheet.totalAssets == sheet.totalLiabilities + sheet.totalEquity + ProfitLossOf(lines, types).netProfit)
      <==> (NoDebitBalance(sheet.rows, types, Liability) && NoDebitBalance(sheet.rows, types, Equity))
  {
    var lines := PostedLines(Run(BLANK, steps).entries, Period(None, asOf));
    var sheet := BalanceSheetOf(lines, types);
    AccountingEquation(steps, asOf, types);
    AbsoluteTotal(sheet.rows, types, Liability);
    AbsoluteTotal(sheet.rows, types, Equity);
    DebitSideTotal(sheet.rows, types, Liability);
    DebitSideTotal(sheet.rows, types, Equity);
  }

  // ---------------------------------------------------------------- reversals

  /** Weighs an entry, posted or reversed, by the sum over its lines. */
  function PerStored(f: Line -> int): Entry -> int
  {
    (e: Entry) => Sum(e.lines, f)
  }

  /** An account's net over all stored entries, posted and reversed alike. */
  function StoredNet(j: Journal, account: AccountId): int
  {
    Sum(j.entries, PerStored(Of(Is(account), Net)))
  }

  /** An account's net in the trial balance. */
  function PostedNet(j: Journal, p: Period, account: AccountId): int
  {
    Sum(PostedLines(j.entries, p), Of(Is(account), Net))
  }

  lemma {:induction false} SwappedNet(lines: seq<Line>, account: nat)
    ensures Sum(Swapped(lines), Of(Is(account), Net)) == -Sum(lines, Of(Is(account), Net))
  {
    if lines != [] {
      SwappedNet(lines[1..], account);
      var swapped := Swapped(lines)[0];
      assert AccountOf(lines[0]) == AccountOf(swapped) && Net(swapped) == -Net(lines[0]);
      assert Of(Is(account), Net)(swapped) == -Of(Is(account), Net)(lines[0]);
      assert Swapped(lines)[1..] == Swapped(lines[1..]);
    }
  }

  /** What a reversal does to an account: over all stored entries it cancels the original; in the posted
      view the original also leaves, so the account moves by the original's effect twice over. */
  lemma ReversalEffect(j: Journal, id: nat, today: int, p: Period, account: nat)
    requires Reverse(j, id, today).Ok?
    ensures var after := Reverse(j, id, today).value;
      var original := j.entries[id];
      var effect := Sum(original.lines, Of(Is(account), Net));
      && StoredNet(after, account) == StoredNet(j, account) - effect
      && PostedNet(after, p, account) == PostedNet(j, p, account)
           - (if Within(p, original.postingDate) then effect else 0)
           - (if Within(p, today) then effect else 0)
  {
    var original, f := j.entries[id], Of(Is(account), Net);
    var e := Entry(today, Reversal(id), Posted, Swapped(original.lines));
    var after := Reverse(j, id, today).value;
    assert after.entries == (j.entries + [e])[id := original.(status := Reversed)];
    SwappedNet(original.lines, account);
    ReversedCounts(j.entries, id, e, PerStored(f));
    PostedLinesSum(j.entries, p, f);
    PostedLinesSum(after.entries, p, f);
    ReversedPosted(j.entries, id, e, p, f);
  }

  lemma ReversedPosted(entries: seq<Entry>, id: nat, e: Entry, p: Period, f: Line -> int)
    requires id < |entries| && entries[id].status == Posted
    ensures Sum((entries + [e])[id := entries[id].(status := Reversed)], PerPosted(p, f))
         == Sum(entries, PerPosted(p, f)) + PerPosted(p, f)(e) - PerPosted(p, f)(entries[id])
  {
    SumAppend(entries, e, PerPosted(p, f));
    SumUpdate(entries + [e], id, entries[id].(status := Reversed), PerPosted(p, f));
  }

  /** Posting an entry and reversing it: over all stored entries every account is back where it was; the
      trial balance of a period is back for an account exactly when the period leaves out the reversal's
      date or the entry nets to nothing on the account. */
  lemma PostThenReverse(j: Journal, date: int, reference: Reference, lines: seq<Line>, today: int, p: Period, account: nat)
    requires CreateEntry(j, date, reference, lines).Ok?
    ensures var posted := CreateEntry(j, date, reference, lines).value;
      var reversed := Reverse(posted, |j.entries|, today);
      && reversed.Ok?
      && StoredNet(reversed.value, account) == StoredNet(j, account)
      && ((PostedNet(reversed.value, p, account) == PostedNet(j, p, account))
          <==> (!Within(p, today) || Sum(lines, Of(Is(account), Net)) == 0))
  {
    var e, f := Entry(date, reference, Posted, lines), Of(Is(account), Net);
    var posted := CreateEntry(j, date, reference, lines).value;
    SwappedSums(lines);
    ReversalEffect(posted, |j.entries|, today, p, account);
    SumAppend(j.entries, e, PerStored(f));
    PostedLinesSum(j.entries, p, f);
    PostedLinesSum(posted.entries, p, f);
    SumAppend(j.entries, e, PerPosted(p, f));
  }

  // ---------------------------------------------------------------- what a posting does to the accounts

  /** Appending a posted entry dated in the period moves each account by what its lines net to. */
  lemma AppendedNet(j: Journal, e: Entry, p: Period, account: nat)
    requires e.status == Posted
    ensures PostedNet(j.(entries := j.entries + [e]), p, account)
         == PostedNet(j, p, account)
          + if (p.from.Some? ==> p.from.value <= e.postingDate) && (p.to.Some? ==> e.postingDate <= p.to.value)
            then Sum(e.lines, Of(Is(account), Net)) else 0
  {
    var f := Of(Is(account), Net);
    PostedLinesSum(j.entries, p, f);
    PostedLinesSum(j.entries + [e], p, f);
    SumAppend(j.entries, e, PerPosted(p, f));
  }

  /** Two lines move the first account up and the second down. */
  lemma PairNet(lines: seq<Line>, debited: nat, credited: nat, amount: int, account: nat)
    requires |lines| == 2 && lines[0].account == debited && lines[0].debit == amount && lines[0].credit == 0
    requires lines[1].account == credited && lines[1].debit == 0 && lines[1].credit == amount
    ensures Sum(lines, Of(Is(account), Net))
         == (if account == debited then amount else 0) - (if account == credited then amount else 0)
  {
    var f := Of(Is(account), Net);
    assert lines[1..] == [lines[1]] && [lines[1]][1..] == [];
    assert AccountOf(lines[0]) == debited && AccountOf(lines[1]) == credited;
    assert Sum(lines, f) == f(lines[0]) + Sum([lines[1]], f);
    assert Sum([lines[1]], f) == f(lines[1]) + Sum([lines[1]][1..], f);
    assert Is(account)(AccountOf(lines[0])) <==> account == debited;
    assert Is(account)(AccountOf(lines[1])) <==> account == credited;
    assert f(lines[0]) == if Is(account)(AccountOf(lines[0])) then Net(lines[0]) else 0;
    assert f(lines[1]) == if Is(account)(AccountOf(lines[1])) then Net(lines[1]) else 0;
  }

  /** How a movement of an amount from one account to another, on a date, shows in a period's trial balance. */
  ghost predicate Moves(j: Journal, after: Journal, p: Period, date: int, debited: nat, credited: nat, amount: int)
  {
    forall account: nat ::
      PostedNet(after, p, account) == PostedNet(j, p, account)
        + if (p.from.Some? ==> p.from.value <= date) && (p.to.Some? ==> date <= p.to.value)
          then (if account == debited then amount else 0) - (if account == credited then amount else 0) else 0
  }

  /** Posting an invoice not on record debits the receivable and credits sales by its total, on its date. */
  lemma InvoiceMoves(j: Journal, invoice: Invoice, receivable: nat, sales: nat, p: Period)
    requires invoice.id !in j.invoices
    ensures var r := PostInvoice(j, invoice, Some(receivable), Some(sales));
      r.Ok? && Moves(j, r.value, p, invoice.date, receivable, sales, invoice.total)
  {
    InvoicePostsExactly(j, invoice, Some(receivable), Some(sales));
    var lines := InvoiceLines(invoice, receivable, sales);
    var after := PostInvoice(j, invoice, Some(receivable), Some(sales)).value;
    var e := Entry(invoice.date, SalesInvoice(invoice.id), Posted, lines);
    forall account: nat
      ensures PostedNet(after, p, account) == PostedNet(j.(entries := j.entries + [e]), p, account)
      ensures Sum(lines, Of(Is(account), Net))
           == (if account == receivable then invoice.total else 0) - (if account == sales then invoice.total else 0)
      ensures PostedNet(j.(entries := j.entries + [e]), p, account) == PostedNet(j, p, account)
          + if (p.from.Some? ==> p.from.value <= e.postingDate) && (p.to.Some? ==> e.postingDate <= p.to.value)
            then Sum(e.lines, Of(Is(account), Net)) else 0
    {
      PairNet(lines, receivable, sales, invoice.total, account);
      AppendedNet(j, e, p, account);
    }
  }

  /** Posting a receipt not on record: money in debits the funds and credits the counter account, money out
      the other way round. */
  lemma ReceiptMoves(j: Journal, receipt: Receipt, funds: nat, counter: nat, p: Period)
    requires receipt.id !in j.receipts
    ensures var r := PostReceipt(j, receipt, Some(funds), Some(counter));
      && r.Ok?
      && (receipt.inbound ==> Moves(j, r.value, p, receipt.date, funds, counter, receipt.amount))
      && (!receipt.inbound ==> Moves(j, r.value, p, receipt.date, counter, funds, receipt.amount))
  {
    ReceiptPostsExactly(j, receipt, Some(funds), Some(counter));
    var lines := ReceiptLines(receipt, funds, counter);
    var after := PostReceipt(j, receipt, Some(funds), Some(counter)).value;
    var e := Entry(receipt.date, PaymentReceipt(receipt.id), Posted, lines);
    var debited, credited := if receipt.inbound then funds else counter, if receipt.inbound then counter else funds;
    forall account: nat
      ensures PostedNet(after, p, account) == PostedNet(j.(entries := j.entries + [e]), p, account)
      ensures Sum(lines, Of(Is(account), Net))
           == (if account == debited then receipt.amount else 0) - (if account == credited then receipt.amount else 0)
      ensures PostedNet(j.(entries := j.entries + [e]), p, account) == PostedNet(j, p, account)
          + if (p.from.Some? ==> p.from.value <= e.postingDate) && (p.to.Some? ==> e.postingDate <= p.to.value)
            then Sum(e.lines, Of(Is(account), Net)) else 0
    {
      PairNet(lines, debited, credited, receipt.amount, account);
      AppendedNet(j, e, p, account);
    }
  }

  /** An invoice and then a receipt of its total, against the same receivable: on every later day the
      receivable is where it was, the funds are up and sales are down by the total. */
  lemma InvoiceThenReceipt(j: Journal, invoice: Invoice, receipt: Receipt, receivable: nat, sales: nat, funds: nat, day: int)
    requires invoice.id !in j.invoices && receipt.id !in j.receipts
    requires receipt.inbound && receipt.amount == invoice.total
    requires invoice.date <= day && receipt.date <= day
    requires receivable != sales && receivable != funds && funds != sales
    ensures var billed := PostInvoice(j, invoice, Some(receivable), Some(sales));
      && billed.Ok?
      && var paid := PostReceipt(billed.value, receipt, Some(funds), Some(receivable));
         var p := Period(None, Some(day));
         && paid.Ok?
         && PostedNet(paid.value, p, receivable) == PostedNet(j, p, receivable)
         && PostedNet(paid.value, p, funds) == PostedNet(j, p, funds) + invoice.total
         && PostedNet(paid.value, p, sales) == PostedNet(j, p, sales) - invoice.total
  {
    InvoiceMoves(j, invoice, receivable, sales, Period(None, Some(day)));
    ReceiptMoves(PostInvoice(j, invoice, Some(receivable), Some(sales)).value, receipt, funds, receivable, Period(None, Some(day)));
  }

  // ---------------------------------------------------------------- what the reports print

  /** What a line puts on accounts of a type, debits positive. */
  function DebitOn(types: map<AccountId, AccountType>, kind: AccountType): Line -> int
  {
    (l: Line) => if l.account in types && types[l.account] == kind then l.debit - l.credit else 0
  }

  /** Income is what its accounts were credited beyond debits, expense the opposite; assets are debits beyond
      credits; liabilities and equity, if none of theirs stands in debit, credits beyond debits. */
  lemma PrintedTotals(lines: seq<Line>, types: map<nat, AccountType>)
    ensures var pl, sheet := ProfitLossOf(lines, types), BalanceSheetOf(lines, types);
      && pl.totalIncome == -Sum(lines, DebitOn(types, Income))
      && pl.totalExpense == Sum(lines, DebitOn(types, Expense))
      && pl.netProfit == pl.totalIncome - pl.totalExpense
      && sheet.totalAssets == Sum(lines, DebitOn(types, Asset))
      && (NoDebitBalance(sheet.rows, types, Liability) ==> sheet.totalLiabilities == -Sum(lines, DebitOn(types, Liability)))
      && (NoDebitBalance(sheet.rows, types, Equity) ==> sheet.totalEquity == -Sum(lines, DebitOn(types, Equity)))
  {
    PrintedTotal(lines, types, {Income, Expense}, Income);
    PrintedTotal(lines, types, {Income, Expense}, Expense);
    PrintedTotal(lines, types, {Asset, Liability, Equity}, Asset);
    PrintedTotal(lines, types, {Asset, Liability, Equity}, Liability);
    PrintedTotal(lines, types, {Asset, Liability, Equity}, Equity);
    var rows := BalanceSheetOf(lines, types).rows;
    AbsoluteTotal(rows, types, Liability);
    AbsoluteTotal(rows, types, Equity);
    DebitSideTotal(rows, types, Liability);
    DebitSideTotal(rows, types, Equity);
  }

  lemma PrintedTotal(lines: seq<Line>, types: map<nat, AccountType>, allowed: set<AccountType>, kind: AccountType)
    requires kind in allowed && kind != OtherType
    ensures TotalOf(GroupByAccount(lines, types, allowed), types, kind, Balance) == Sum(lines, DebitOn(types, kind))
    ensures TotalOf(GroupByAccount(lines, types, allowed), types, kind, CreditBalance) == -Sum(lines, DebitOn(types, kind))
  {
    TypeTotal(lines, types, allowed, kind);
    forall i | 0 <= i < |lines| ensures Of(Typed(types, {kind}), Net)(lines[i]) == DebitOn(types, kind)(lines[i]) {
      assert AccountOf(lines[i]) == lines[i].account;
    }
    SumAgree(lines, Of(Typed(types, {kind}), Net), DebitOn(types, kind));
  }

  // ---------------------------------------------------------------- where the reports fall short

  /** One paisa, debited to account 0 and credited to account 1. */
  const TRANSFER := [Line(0, 1, 0, None, None), Line(1, 0, 1, None, None)]

  lemma TransferSums()
    ensures Balanced(TRANSFER)
    ensures Sum(TRANSFER, Of(Is<AccountId>(0), Net)) == 1
  {
    TwoLines(TRANSFER[0], TRANSFER[1]);
    var f := Of(Is<AccountId>(0), Net);
    assert TRANSFER[1..] == [TRANSFER[1]] && [TRANSFER[1]][1..] == [];
    assert Sum(TRANSFER, f) == f(TRANSFER[0]) + Sum(TRANSFER[1..], f);
    assert Sum([TRANSFER[1]], f) == f(TRANSFER[1]) + Sum([TRANSFER[1]][1..], f);
    assert AccountOf(TRANSFER[0]) == 0 && AccountOf(TRANSFER[1]) == 1;
  }

  lemma RunTwo(j: Journal, a: Step, b: Step)
    ensures Run(j, [a, b]) == Apply(Apply(j, a), b)
  {
    assert [a, b][..1] == [a] && [a][..0] == [];
    assert Run(j, [a]) == Apply(j, a);
  }

  /** As it happens: an entry posted and reversed, and its account does not come back in the trial balance. */
  lemma ReversedAccountMoves(date: int, today: int)
    ensures var after := Run(BLANK, [EntryPosted(date, 0, TRANSFER), EntryReversed(0, today)]);
      PostedNet(after, Period(None, None), 0) != PostedNet(BLANK, Period(None, None), 0)
  {
    TransferSums();
    RunTwo(BLANK, EntryPosted(date, 0, TRANSFER), EntryReversed(0, today));
    PostThenReverse(BLANK, date, OtherDocument(0), TRANSFER, today, Period(None, None), 0);
  }

  /** As it happens: a liability standing in debit, and the printed balance sheet does not add up. */
  lemma DebitLiability()
    ensures var lines := PostedLines(Run(BLANK, [EntryPosted(0, 0, TRANSFER)]).entries, Period(None, None));
      var types: map<AccountId, AccountType> := map[0 := Liability, 1 := Asset];
      var sheet := BalanceSheetOf(lines, types);
      sheet.totalAssets != sheet.totalLiabilities + sheet.totalEquity + ProfitLossOf(lines, types).netProfit
  {
    var types: map<AccountId, AccountType> := map[0 := Liability, 1 := Asset];
    TransferPosted();
    NothingUnclassified(types);
    TransferRows(types);
    BalanceSheetAddsUp([EntryPosted(0, 0, TRANSFER)], None, types);
  }

  lemma TransferPosted()
    ensures PostedLines(Run(BLANK, [EntryPosted(0, 0, TRANSFER)]).entries, Period(None, None)) == TRANSFER
  {
    var steps := [EntryPosted(0, 0, TRANSFER)];
    TransferSums();
    assert steps[..0] == [] && Run(BLANK, steps) == Apply(Run(BLANK, []), steps[0]);
    var e := Entry(0, OtherDocument(0), Posted, TRANSFER);
    assert Run(BLANK, steps).entries == [e];
    assert [e][..0] == [] && [] + TRANSFER == TRANSFER;
    assert PostedLines([], Period(None, None)) == [];
    assert PostedLines([e], Period(None, None)) == PostedLines([], Period(None, None)) + TRANSFER;
  }

  lemma NothingUnclassified(types: map<AccountId, AccountType>)
    requires types == map[0 := Liability, 1 := Asset]
    ensures Unclassified(TRANSFER, types) == 0
  {
    var f := NetOn(types, OtherType);
    assert TRANSFER[1..] == [TRANSFER[1]] && [TRANSFER[1]][1..] == [];
    assert !Typed(types, {OtherType})(0) && !Typed(types, {OtherType})(1);
    assert AccountOf(TRANSFER[0]) == 0 && AccountOf(TRANSFER[1]) == 1;
    assert f(TRANSFER[0]) == 0 && f(TRANSFER[1]) == 0;
    assert Sum(TRANSFER, f) == f(TRANSFER[0]) + Sum(TRANSFER[1..], f);
    assert Sum([TRANSFER[1]], f) == f(TRANSFER[1]) + Sum([TRANSFER[1]][1..], f);
  }

  lemma TransferRows(types: map<AccountId, AccountType>)
    requires types == map[0 := Liability, 1 := Asset]
    ensures !NoDebitBalance(BalanceSheetOf(TRANSFER, types).rows, types, Liability)
  {
    var select := Typed(types, {Asset, Liability, Equity});
    assert select(0) && select(1);
    AllSelected(TRANSFER, select);
    TransferSums();
    TrialBalanceRow(TRANSFER, 0);
    var i := LookupFound(TrialBalance(TRANSFER), 0, NO_TOTALS);
    assert Typed(types, {Liability})(0);
  }

  lemma {:induction false} AllSelected(lines: seq<Line>, select: AccountId -> bool)
    requires forall i :: 0 <= i < |lines| ==> select(lines[i].account)
    ensures Selected(lines, select) == lines
  {
    if lines != [] { AllSelected(lines[1..], select); }
  }

  // ---------------------------------------------------------------- ledgers

  /** In whatever order an account's lines are listed, the last running balance of its ledger is its
      balance in the trial balance of the same lines. */
  lemma LedgerEndsAtTrialBalance(lines: seq<Line>, listed: seq<Line>, account: nat)
    requires multiset(listed) == multiset(Selected(lines, Is(account)))
    ensures var running := RunningBalances(listed);
      var balance := Balance(Lookup(TrialBalance(lines), account, NO_TOTALS));
      if listed == [] then balance == 0 else running[|running| - 1] == balance
  {
    ChosenNet(lines, account);
    SumPermutation(listed, Selected(lines, Is(account)), Net);
    if listed != [] { LastRunning(listed); }
  }

  lemma LastRunning(listed: seq<Line>)
    requires listed != []
    ensures var running := RunningBalances(listed); |running| == |listed| && running[|running| - 1] == Sum(listed, Net)
  {
    assert listed[..|listed|] == listed;
  }

  lemma ChosenNet(lines: seq<Line>, account: nat)
    ensures Balance(Lookup(TrialBalance(lines), account, NO_TOTALS)) == Sum(Selected(lines, Is(account)), Net)
  {
    var chosen := Selected(lines, Is(account));
    TrialBalanceRow(lines, account);
    SelectedSum(lines, Is(account), Is(account), Net);
    SelectedAreOf(lines, Is(account));
    SumAgree(chosen, Of(Is(account), Net), Net);
  }

  lemma {:induction false} SelectedAreOf(lines: seq<Line>, select: AccountId -> bool)
    ensures forall i :: 0 <= i < |Selected(lines, select)| ==> select(Selected(lines, select)[i].account)
  {
    if lines != [] { SelectedAreOf(lines[1..], select); }
  }
}
