/** The journal of a payment voucher: it balances for any allocations, and credits each tax authority what was deducted
    for it. */
module VoucherJournals {
  import opened Money
  import opened Sums
  import opened Ledger
  import opened AccountsPayable

  // ---- Grouping by authority ----

  function DeductionOf(d: Deduction): int { d.amount }

  function ForAuthority(x: AccountId, d: Deduction): int {
    if d.authority == x then d.amount else 0
  }

  function CreditFor(x: AccountId): Deduction -> int {
    (d: Deduction) => ForAuthority(x, d)
  }

  function DeductedFor(x: AccountId, d: Option<Deduction>): int {
    if d.Some? then ForAuthority(x, d.value) else 0
  }

  function TaxFor(x: AccountId): PaymentAllocation -> int {
    (a: PaymentAllocation) => DeductedFor(x, a.wht) + DeductedFor(x, a.vat)
  }

  function TaxOf(a: PaymentAllocation): int {
    AmountOf(a.wht) + AmountOf(a.vat)
  }

  /** Any weight that is additive in the amount of one authority grows by the weight of the new deduction. */
  lemma {:induction false} CreditedSum(credits: seq<Deduction>, d: Deduction, w: Deduction -> int)
    requires forall a: AccountId, m: int, n: int :: w(Deduction(a, m + n)) == w(Deduction(a, m)) + w(Deduction(a, n))
    ensures Sum(Credited(credits, Some(d)), w) == Sum(credits, w) + w(d)
  {
    var after := Credited(credits, Some(d));
    if credits == [] {
      assert after[1..] == [];
    } else if credits[0].authority == d.authority {
      assert after[1..] == credits[1..];
      assert w(Deduction(d.authority, credits[0].amount + d.amount)) == w(credits[0]) + w(d);
    } else {
      CreditedSum(credits[1..], d, w);
      assert after[1..] == Credited(credits[1..], Some(d));
    }
  }

  lemma CreditedOption(credits: seq<Deduction>, d: Option<Deduction>, x: AccountId)
    ensures Sum(Credited(credits, d), DeductionOf) == Sum(credits, DeductionOf) + AmountOf(d)
    ensures Sum(Credited(credits, d), CreditFor(x)) == Sum(credits, CreditFor(x)) + DeductedFor(x, d)
  {
    if d.Some? {
      CreditedSum(credits, d.value, DeductionOf);
      CreditedSum(credits, d.value, CreditFor(x));
    }
  }

  /** Each authority is credited exactly what the allocations deduct for it, and all of them together all that is
      deducted. */
  lemma {:induction false} CreditsMatchDeductions(allocations: seq<PaymentAllocation>, x: AccountId)
    ensures Sum(TaxCredits(allocations), CreditFor(x)) == Sum(allocations, TaxFor(x))
    ensures Sum(TaxCredits(allocations), DeductionOf) == Sum(allocations, TaxOf)
  {
    if allocations != [] {
      var n := |allocations| - 1;
      var last, before := allocations[n], TaxCredits(allocations[..n]);
      CreditsMatchDeductions(allocations[..n], x);
      CreditedOption(before, last.wht, x);
      CreditedOption(Credited(before, last.wht), last.vat, x);
      assert allocations == allocations[..n] + [last];
      SumAppend(allocations[..n], last, TaxFor(x));
      SumAppend(allocations[..n], last, TaxOf);
    }
  }

  predicate Listed(credits: seq<Deduction>, x: AccountId) {
    exists i :: 0 <= i < |credits| && credits[i].authority == x
  }

  predicate Names(d: Option<Deduction>, x: AccountId) {
    d.Some? && d.value.authority == x
  }

  predicate OnePerAuthority(credits: seq<Deduction>) {
    forall j, k :: 0 <= j < k < |credits| ==> credits[j].authority != credits[k].authority
  }

  lemma {:induction false} CreditedLists(credits: seq<Deduction>, d: Option<Deduction>, x: AccountId)
    ensures Listed(Credited(credits, d), x) <==> Listed(credits, x) || Names(d, x)
  {
    if d.Some? && credits != [] {
      var after := Credited(credits, d);
      ListedTail(credits, x);
      ListedTail(after, x);
      if credits[0].authority == d.value.authority {
        assert after[1..] == credits[1..];
      } else {
        CreditedLists(credits[1..], d, x);
        assert after[1..] == Credited(credits[1..], d);
      }
    } else if d.Some? {
      ListedTail(Credited(credits, d), x);
    }
  }

  lemma ListedTail(credits: seq<Deduction>, x: AccountId)
    requires credits != []
    ensures Listed(credits, x) <==> credits[0].authority == x || Listed(credits[1..], x)
  {
    if Listed(credits, x) {
      var i :| 0 <= i < |credits| && credits[i].authority == x;
      if i > 0 {
        assert credits[1..][i - 1].authority == x;
      }
    }
    if Listed(credits[1..], x) {
      var i :| 0 <= i < |credits| - 1 && credits[1..][i].authority == x;
      assert credits[i + 1].authority == x;
    }
  }

  lemma {:induction false} CreditedOnce(credits: seq<Deduction>, d: Option<Deduction>)
    requires OnePerAuthority(credits)
    ensures OnePerAuthority(Credited(credits, d))
  {
    if d.Some? && credits != [] && credits[0].authority != d.value.authority {
      var rest := Credited(credits[1..], d);
      CreditedOnce(credits[1..], d);
      CreditedLists(credits[1..], d, credits[0].authority);
      assert forall k :: 0 <= k < |credits[1..]| ==> credits[1..][k] == credits[k + 1];
      assert !Listed(rest, credits[0].authority);
    }
  }

  predicate NamedIn(allocations: seq<PaymentAllocation>, x: AccountId) {
    exists i :: 0 <= i < |allocations| && (Names(allocations[i].wht, x) || Names(allocations[i].vat, x))
  }

  /** An authority is listed once when some allocation deducts for it, and not otherwise. */
  lemma {:induction false} CreditsGrouped(allocations: seq<PaymentAllocation>, x: AccountId)
    ensures OnePerAuthority(TaxCredits(allocations))
    ensures Listed(TaxCredits(allocations), x) <==> NamedIn(allocations, x)
  {
    if allocations != [] {
      var n := |allocations| - 1;
      var last, before := allocations[n], TaxCredits(allocations[..n]);
      CreditsGrouped(allocations[..n], x);
      CreditedOnce(before, last.wht);
      CreditedOnce(Credited(before, last.wht), last.vat);
      CreditedLists(before, last.wht, x);
      CreditedLists(Credited(before, last.wht), last.vat, x);
    }
  }

  // ---- Balance ----

  lemma {:induction false} TaxLineTotals(v: VendorId, credits: seq<Deduction>)
    ensures SumReal(TaxLines(v, credits), InputDebit) == 0.0
    ensures SumReal(TaxLines(v, credits), InputCredit) == Sum(credits, DeductionOf) as real
  {
    if credits != [] {
      TaxLineTotals(v, credits[1..]);
      assert TaxLines(v, credits)[1..] == TaxLines(v, credits[1..]);
    }
  }

  lemma GrossIsCashAndTax(allocations: seq<PaymentAllocation>)
    ensures Sum(allocations, GrossOf) == Sum(allocations, CashOf) + Sum(allocations, TaxOf)
  {
    SumMinus(allocations, CashOf, GrossOf, TaxOf);
  }

  /** Both sides of a voucher's journal are the gross amount allocated, whatever is deducted and for whom. */
  lemma VoucherBalances(v: Voucher, control: AccountId, cash: AccountId)
    ensures SumReal(VoucherJournal(v, control, cash), InputDebit) == Sum(v.allocations, GrossOf) as real
    ensures SumReal(VoucherJournal(v, control, cash), InputCredit) == Sum(v.allocations, GrossOf) as real
  {
    var first := LineInput(control, Sum(v.allocations, GrossOf) as real, 0.0, VendorDims(v.vendor));
    var second := LineInput(cash, 0.0, Sum(v.allocations, CashOf) as real, VendorDims(v.vendor));
    var taxes := TaxLines(v.vendor, TaxCredits(v.allocations));
    assert VoucherJournal(v, control, cash) == ([first] + [second]) + taxes;
    GrossIsCashAndTax(v.allocations);
    CreditsMatchDeductions(v.allocations, 0);
    TaxLineTotals(v.vendor, TaxCredits(v.allocations));
    hide Sum, TaxCredits, TaxLines, VoucherJournal;
    SumRealConcat([first] + [second], taxes, InputDebit);
    SumRealConcat([first] + [second], taxes, InputCredit);
    SumRealAppend([first], second, InputDebit);
    SumRealAppend([first], second, InputCredit);
    assert SumReal([first], InputDebit) == first.debit && SumReal([first], InputCredit) == first.credit;
  }

  // ---- Acceptance ----

  predicate NoZeroTotals(v: Voucher) {
    && Sum(v.allocations, GrossOf) != 0 && Sum(v.allocations, CashOf) != 0
    && forall d :: d in TaxCredits(v.allocations) ==> d.amount != 0
  }

  predicate VoucherAccounts(master: Master, v: Voucher, control: AccountId, cash: AccountId) {
    && (v.entity, control) in master.postable && (v.entity, cash) in master.postable
    && forall d :: d in TaxCredits(v.allocations) ==> (v.entity, d.authority) in master.postable
  }

  lemma VoucherLines(v: Voucher, control: AccountId, cash: AccountId, master: Master)
    ensures NoZeroLines(VoucherJournal(v, control, cash)) <==> NoZeroTotals(v)
    ensures LinesPostable(master, v.entity, VoucherJournal(v, control, cash))
            <==> VoucherAccounts(master, v, control, cash)
  {
    var credits := TaxCredits(v.allocations);
    var journal := VoucherJournal(v, control, cash);
    assert journal[0] in journal && journal[1] in journal;
    hide Sum, TaxCredits;
    forall d | d in credits
      ensures TaxLine(v.vendor, d) in journal
    {
      var i :| 0 <= i < |credits| && credits[i] == d;
      assert journal[i + 2] == TaxLine(v.vendor, d);
    }
    forall line | line in journal
      ensures line == journal[0] || line == journal[1] || exists d :: d in credits && line == TaxLine(v.vendor, d)
    {
      var i :| 0 <= i < |journal| && journal[i] == line;
      if i >= 2 {
        assert credits[i - 2] in credits && line == TaxLine(v.vendor, credits[i - 2]);
      }
    }
  }

  /** An approved voucher posts exactly when its gross amount, its net cash and every authority's total differ from
      zero, and the ledger takes entries of its entity, in the period of its payment date, on these accounts. */
  lemma VoucherPostsExactlyWhen(p: Payables, master: Master, id: VoucherId, control: AccountId, cash: AccountId,
                                user: UserId)
    requires id < |p.vouchers| && p.vouchers[id].status == VoucherStatus.APPROVED
    ensures
      var v := p.vouchers[id];
      var key := PeriodOf(v.entity, v.paymentDate);
      VoucherPosted(p, master, id, control, cash, user).result.Ok?
      <==> NoZeroTotals(v) && v.entity in master.activeEntities && VoucherAccounts(master, v, control, cash)
           && (key in p.ledger.periods ==> p.ledger.periods[key] == OPEN)
  {
    var v := p.vouchers[id];
    VoucherBalances(v, control, cash);
    VoucherLines(v, control, cash, master);
    hide NoZeroLines, LinesPostable, VoucherAccounts, VoucherJournal, TaxCredits, StoreLines, Sum, SumReal,
         WithPayments;
  }

  // ---- Direct invoices ----

  lemma InvoiceBalances(i: Invoice, control: AccountId)
    ensures SumReal(InvoiceJournal(i, control), InputDebit)
            == Total(i) == SumReal(InvoiceJournal(i, control), InputCredit)
  {
    var expenses := ExpenseLines(i.vendor, i.lines);
    var last := LineInput(control, 0.0, Total(i), VendorDims(i.vendor));
    SumRealMapped(expenses, i.lines, InputDebit, LineValue);
    SumRealZero(expenses, InputCredit);
    SumRealAppend(expenses, last, InputDebit);
    SumRealAppend(expenses, last, InputCredit);
  }

  predicate InvoiceAccounts(master: Master, i: Invoice, control: AccountId) {
    && (i.entity, control) in master.postable
    && forall line :: line in i.lines ==> (i.entity, line.account) in master.postable
  }

  lemma InvoiceLines(i: Invoice, control: AccountId, master: Master)
    ensures NoZeroLines(InvoiceJournal(i, control))
            <==> Total(i) != 0.0 && forall line :: line in i.lines ==> LineValue(line) != 0.0
    ensures LinesPostable(master, i.entity, InvoiceJournal(i, control)) <==> InvoiceAccounts(master, i, control)
  {
    var journal := InvoiceJournal(i, control);
    var n := |i.lines|;
    hide SumReal;
    assert journal[n] in journal && journal[n] == LineInput(control, 0.0, Total(i), VendorDims(i.vendor));
    forall line | line in i.lines
      ensures ExpenseLine(i.vendor, line) in journal
    {
      var k :| 0 <= k < n && i.lines[k] == line;
      assert journal[k] == ExpenseLine(i.vendor, line);
    }
    forall line | line in journal
      ensures line == journal[n] || exists own :: own in i.lines && line == ExpenseLine(i.vendor, own)
    {
      var k :| 0 <= k <= n && journal[k] == line;
      if k < n {
        assert i.lines[k] in i.lines && line == ExpenseLine(i.vendor, i.lines[k]);
      }
    }
  }

  /** A direct draft invoice always balances, and posts exactly when its total and every line's value differ from zero
      and the ledger takes entries of its entity, in the period of its date, on these accounts. */
  lemma InvoicePostsExactlyWhen(p: Payables, master: Master, id: InvoiceId, control: AccountId, user: UserId)
    requires id < |p.invoices| && p.invoices[id].status == InvoiceStatus.DRAFT && p.invoices[id].order.None?
    ensures
      var i := p.invoices[id];
      var key := PeriodOf(i.entity, i.invoiceDate);
      InvoicePosted(p, master, id, control, user).result.Ok?
      <==> Total(i) != 0.0 && (forall line :: line in i.lines ==> LineValue(line) != 0.0)
           && i.entity in master.activeEntities && InvoiceAccounts(master, i, control)
           && (key in p.ledger.periods ==> p.ledger.periods[key] == OPEN)
  {
    InvoiceBalances(p.invoices[id], control);
    InvoiceLines(p.invoices[id], control, master);
    hide NoZeroLines, LinesPostable, InvoiceAccounts, InvoiceJournal, StoreLines, SumReal, Total, LineValue, Store;
  }
}
