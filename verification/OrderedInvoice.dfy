/** One invoice of 100.00 that names a purchase order, posted by its three-way match and paid by a voucher: a run on
    which the control account, the vendor statement and the open direct invoices disagree. */
module OrderedInvoice {
  import opened Money
  import opened Sums
  import opened Calendar
  import opened Ledger
  import opened AccountsPayable
  import opened VoucherJournals
  import opened Procurement
  import opened PayablesRuns
  import opened PurchasingRuns

  const VENDOR := 7
  const CONTROL := 2
  const CASH := 3
  const CLEARING := 4
  const OTHER_CONTROL := 9

  const DAY := Date(2025, 0, 0)

  const MASTER := Master({0}, {(0, CONTROL), (0, CASH), (0, CLEARING), (0, OTHER_CONTROL)})

  const ORDER := PurchaseOrder(0, VENDOR)

  const BILL := BillInput(InvoiceInput(0, VENDOR, 1, DAY, [InvoiceLineInput(1, 1.0, 10_000.0)]), Some(0), {0})

  const NO_TAX := TaxInput(None, None, None)

  const VOUCHER := VoucherInput(0, 1, VENDOR, None, DAY, [AllocationInput(0, 10_000.0, NO_TAX, NO_TAX)])

  const LINE := InvoiceLine(1, 1.0, 10_000, true)

  const INVOICE := Invoice(0, VENDOR, 1, Some(0), DAY, InvoiceStatus.PENDING_MATCH, [LINE], 0)

  const PAID := [PaymentAllocation(0, 10_000, None, None)]

  /** Until the match is completed. */
  function Before(): seq<PurchasingStep> {
    [PlaceOrder(ORDER), Bill(MASTER, {VENDOR}, BILL), Pair(0, Some(Receipt(0, CLEARING)), 0)]
  }

  function Completion(control: AccountId): PurchasingStep {
    Complete(MASTER, 0, control, 5, DAY)
  }

  function Payment(): seq<PurchasingStep> {
    [Pay(CreateVoucher(MASTER, map[], VOUCHER, 5)), Pay(ApproveVoucher(0, 6)),
     Pay(PostVoucher(MASTER, 0, CONTROL, CASH, 5))]
  }

  function Paired(): Purchasing {
    Purchasing(Payables(EMPTY, [INVOICE], [], [], []), [ORDER], [ThreeWayMatch(0, 0, CLEARING, None)])
  }

  lemma BillStored()
    ensures BilledLines(BILL) == [LINE]
  {
    assert 1.0 * 10_000.0 == 10_000.0 && 10_000.0 / 10_000.0 == 1.0;
    StoreWhole(10_000);
  }

  lemma {:induction false} RunInTwo(q: Purchasing, s: seq<PurchasingStep>, t: seq<PurchasingStep>, c: AccountId)
    ensures RunPurchasing(q, s + t) == RunPurchasing(RunPurchasing(q, s), t)
    ensures RunRole(q, s + t, c) <==> RunRole(q, s, c) && RunRole(RunPurchasing(q, s), t, c)
    decreases |s|
  {
    hide ApplyPurchasing, Role;
    if s == [] {
      assert s + t == t;
    } else {
      assert (s + t)[1..] == s[1..] + t;
      RunInTwo(ApplyPurchasing(q, s[0]), s[1..], t, c);
    }
  }

  lemma RunOfThree(q: Purchasing, x: PurchasingStep, y: PurchasingStep, z: PurchasingStep, c: AccountId)
    ensures RunPurchasing(q, [x, y, z]) == ApplyPurchasing(ApplyPurchasing(ApplyPurchasing(q, x), y), z)
    ensures RunRole(q, [x, y, z], c) <==>
            Role(q, x, c) && Role(ApplyPurchasing(q, x), y, c) && Role(ApplyPurchasing(ApplyPurchasing(q, x), y), z, c)
  {
    hide ApplyPurchasing, Role;
    assert [x, y, z][1..] == [y, z] && [y, z][1..] == [z] && [z][1..] == [];
    var second := ApplyPurchasing(ApplyPurchasing(q, x), y);
    assert RunPurchasing(second, [z]) == RunPurchasing(ApplyPurchasing(second, z), []);
    assert RunRole(second, [z], c) <==> Role(second, z, c) && RunRole(ApplyPurchasing(second, z), [], c);
  }

  lemma PairedIsReached()
    ensures RunPurchasing(NO_PURCHASING, Before()) == Paired() && RunRole(NO_PURCHASING, Before(), CONTROL)
  {
    BillStored();
    var x, y, z := Before()[0], Before()[1], Before()[2];
    RunOfThree(NO_PURCHASING, x, y, z, CONTROL);
    hide BilledLines, RunPurchasing, RunRole;
    var first := ApplyPurchasing(NO_PURCHASING, x);
    assert first == Purchasing(Payables(EMPTY, [], [], [], []), [ORDER], []);
    var second := ApplyPurchasing(first, y);
    assert second == Purchasing(Payables(EMPTY, [INVOICE], [], [], []), [ORDER], []);
  }

  // ---- The match is completed ----

  function Matched(): Invoice {
    AsMatched(INVOICE, ORDER, CLEARING)
  }

  lemma InvoiceTotal(i: Invoice)
    requires |i.lines| == 1 && i.lines[0].quantity == 1.0 && i.lines[0].unitCost == 10_000
    ensures Total(i) == 10_000.0
  {
    var line := i.lines[0];
    assert i.lines == [] + [line];
    SumRealAppend([], line, LineValue);
    assert 1.0 * (line.unitCost as real) == 10_000.0;
  }

  function Accrued(control: AccountId): Outcome {
    PostSystem(EMPTY, MASTER, EntryInput(0, DAY, InvoiceJournal(Matched(), control)), 5)
  }

  lemma CompletionPosts(control: AccountId)
    requires control == CONTROL || control == OTHER_CONTROL
    ensures Accrued(control).result.Ok?
    ensures Accrued(control).ledger.periods == map[PeriodOf(0, DAY) := OPEN]
  {
    InvoiceTotal(Matched());
    InvoiceBalances(Matched(), control);
    InvoiceLines(Matched(), control, MASTER);
    assert Matched().lines == [LINE.(account := CLEARING)];
    assert LineValue(LINE.(account := CLEARING)) == 10_000.0;
    hide InvoiceJournal, Total, LineValue, NoZeroLines, LinesPostable, StoreLines, SumReal;
  }

  function Completed(control: AccountId): Purchasing {
    Purchasing(Payables(Accrued(control).ledger, [INVOICE.(status := InvoiceStatus.POSTED)], [], [], []), [ORDER],
               [ThreeWayMatch(0, 0, CLEARING, Some(control))])
  }

  lemma CompletedIsReached(control: AccountId)
    requires control == CONTROL || control == OTHER_CONTROL
    ensures RunPurchasing(Paired(), [Completion(control)]) == Completed(control)
    ensures RunRole(Paired(), [Completion(control)], CONTROL)
  {
    CompletionPosts(control);
    assert Matched().lines == [LINE.(account := CLEARING)];
    var s := Completion(control);
    hide PostSystem, InvoiceJournal;
    assert ApplyPurchasing(Paired(), s) == Completed(control);
    assert Role(Paired(), s, CONTROL);
    assert [s][1..] == [];
  }

  // ---- The voucher is paid ----

  function Payable(control: AccountId, status: VoucherStatus): Payables {
    Completed(control).payables.(vouchers := [Voucher(0, 1, VENDOR, None, DAY, status, 5, PAID)])
  }

  lemma VoucherIsCreated(control: AccountId)
    ensures ApplyPayables(Completed(control).payables, CreateVoucher(MASTER, map[], VOUCHER, 5))
            == Payable(control, VoucherStatus.DRAFT)
  {
    var p := Completed(control).payables;
    InvoiceTotal(p.invoices[0]);
    hide Total, Accrued;
    var asked := VOUCHER.allocations;
    assert CheckAllocation(p, VENDOR, asked[0]).None?;
    assert asked[1..] == [] && CheckAllocations(p, VENDOR, asked).None?;
    AllocationStored();
    assert StoreAllocations(map[], asked) == PAID;
  }

  lemma AllocationStored()
    ensures StoreAllocation(map[], AllocationInput(0, 10_000.0, NO_TAX, NO_TAX)) == PAID[0]
  {
    StoreWhole(10_000);
  }

  lemma PaidTotals()
    ensures Sum(PAID, GrossOf) == Sum(PAID, CashOf) == 10_000 && TaxCredits(PAID) == []
  {
    assert PAID[1..] == [] && PAID[..0] == [];
  }

  lemma VoucherPosts(control: AccountId)
    requires control == CONTROL || control == OTHER_CONTROL
    ensures VoucherPosted(Payable(control, VoucherStatus.APPROVED), MASTER, 0, CONTROL, CASH, 5).result.Ok?
  {
    CompletionPosts(control);
    PaidTotals();
    hide PostSystem, Sum, TaxCredits;
    VoucherPostsExactlyWhen(Payable(control, VoucherStatus.APPROVED), MASTER, 0, CONTROL, CASH, 5);
  }

  lemma VoucherIsPaid(control: AccountId)
    requires control == CONTROL || control == OTHER_CONTROL
    ensures
      var p := VoucherPosted(Payable(control, VoucherStatus.APPROVED), MASTER, 0, CONTROL, CASH, 5).payables;
      && p.invoices == [INVOICE.(status := InvoiceStatus.POSTED, amountPaid := 10_000)]
      && p.vendorLedger == [VendorEntry(0, VENDOR, DAY, 10_000, 0)]
  {
    VoucherPosts(control);
    PaidTotals();
    var invoices := Completed(control).payables.invoices;
    assert PAID == [] + [PAID[0]] && WithPayments(invoices, []) == invoices;
    hide PostSystem, Accrued, VoucherJournal, Sum, TaxCredits;
    assert PAID[..0] == [];
    assert WithPayments(invoices, PAID) == [INVOICE.(status := InvoiceStatus.POSTED, amountPaid := 10_000)];
  }

  function Vouched(control: AccountId, status: VoucherStatus): Purchasing {
    Completed(control).(payables := Payable(control, status))
  }

  lemma VoucherSteps(control: AccountId)
    requires control == CONTROL || control == OTHER_CONTROL
    ensures Role(Completed(control), Payment()[0], CONTROL)
    ensures Role(Vouched(control, VoucherStatus.DRAFT), Payment()[1], CONTROL)
    ensures Role(Vouched(control, VoucherStatus.APPROVED), Payment()[2], CONTROL)
    ensures ApplyPurchasing(Completed(control), Payment()[0]) == Vouched(control, VoucherStatus.DRAFT)
    ensures ApplyPurchasing(Vouched(control, VoucherStatus.DRAFT), Payment()[1])
            == Vouched(control, VoucherStatus.APPROVED)
  {
    VoucherIsCreated(control);
    hide Accrued, VoucherCreated, VoucherPosted;
  }

  lemma PaymentLeaves(control: AccountId)
    requires control == CONTROL || control == OTHER_CONTROL
    ensures
      var q := ApplyPurchasing(Vouched(control, VoucherStatus.APPROVED), Payment()[2]);
      && q.payables.invoices == [INVOICE.(status := InvoiceStatus.POSTED, amountPaid := 10_000)]
      && q.payables.vendorLedger == [VendorEntry(0, VENDOR, DAY, 10_000, 0)]
      && q.orders == [ORDER] && q.matches == [ThreeWayMatch(0, 0, CLEARING, Some(control))]
  {
    VoucherIsPaid(control);
    hide Accrued, VoucherPosted;
  }

  /** What the payment leaves on the invoice, the matches and the vendor ledger. */
  lemma PaymentIsReached(control: AccountId)
    requires control == CONTROL || control == OTHER_CONTROL
    ensures RunRole(Completed(control), Payment(), CONTROL)
    ensures
      var q := RunPurchasing(Completed(control), Payment());
      && q.payables.invoices == [INVOICE.(status := InvoiceStatus.POSTED, amountPaid := 10_000)]
      && q.payables.vendorLedger == [VendorEntry(0, VENDOR, DAY, 10_000, 0)]
      && q.orders == [ORDER] && q.matches == [ThreeWayMatch(0, 0, CLEARING, Some(control))]
  {
    var x, y, z := Payment()[0], Payment()[1], Payment()[2];
    assert Payment() == [x, y, z];
    hide *;
    VoucherSteps(control);
    PaymentLeaves(control);
    RunOfThree(Completed(control), x, y, z, CONTROL);
  }

  function Run(control: AccountId): seq<PurchasingStep> {
    Before() + ([Completion(control)] + Payment())
  }

  lemma RunIsReached(control: AccountId)
    requires control == CONTROL || control == OTHER_CONTROL
    ensures RunRole(NO_PURCHASING, Run(control), CONTROL)
    ensures RunPurchasing(NO_PURCHASING, Run(control)) == RunPurchasing(Completed(control), Payment())
  {
    hide RunRole, RunPurchasing, Completed, Paired;
    PairedIsReached();
    CompletedIsReached(control);
    PaymentIsReached(control);
    RunInTwo(NO_PURCHASING, Before(), [Completion(control)] + Payment(), CONTROL);
    RunInTwo(Paired(), [Completion(control)], Payment(), CONTROL);
  }

  /** The vendor is owed nothing and has no direct invoice, but its statement says it owes 100.00; so does the control
      account, unless the match was completed on it. */
  lemma StatementMissesTheInvoice(control: AccountId)
    requires control == CONTROL || control == OTHER_CONTROL
    ensures RunRole(NO_PURCHASING, Run(control), CONTROL)
    ensures
      var q := RunPurchasing(NO_PURCHASING, Run(control));
      && Direct(q, VENDOR) == 0 && PostedOrdered(q, VENDOR) == PaidOrdered(q, VENDOR) == 10_000
      && Statement(q, None, VENDOR) == -10_000
      && ControlBalance(q, CONTROL, None, VENDOR) == if control == CONTROL then 0 else -10_000
  {
    RunIsReached(control);
    PaymentIsReached(control);
    hide RunPurchasing, RunRole, Completed, ControlBalance, Statement, Direct, PaidOrdered, PostedOrdered, MatchCredit;
    var q := RunPurchasing(NO_PURCHASING, Run(control));
    ThreeBalances(Run(control), CONTROL, None, VENDOR);
    FinalSums(q, control);
  }

  lemma FinalSums(q: Purchasing, control: AccountId)
    requires q.payables.invoices == [INVOICE.(status := InvoiceStatus.POSTED, amountPaid := 10_000)]
    requires q.payables.vendorLedger == [VendorEntry(0, VENDOR, DAY, 10_000, 0)]
    requires q.orders == [ORDER] && q.matches == [ThreeWayMatch(0, 0, CLEARING, Some(control))]
    ensures Direct(q, VENDOR) == 0 && PostedOrdered(q, VENDOR) == PaidOrdered(q, VENDOR) == 10_000
    ensures Statement(q, None, VENDOR) == -10_000
    ensures MatchCredit(q, CONTROL, None, VENDOR) == if control == CONTROL then 10_000 else 0
  {
    var i, row, m := q.payables.invoices[0], q.payables.vendorLedger[0], q.matches[0];
    InvoiceTotal(i);
    StoreWhole(10_000);
    assert [i] == [] + [i] && [row] == [] + [row] && [m] == [] + [m];
    hide Total, Store;
    SumAppend([], i, DirectFor(VENDOR));
    SumAppend([], i, PaidOrderedFor(VENDOR));
    SumAppend([], i, PostedOrderedFor(VENDOR));
    SumAppend([], row, VendorBalance(None, VENDOR));
    SumAppend([], m, MatchCreditOf(q, CONTROL, None, VENDOR));
  }
}
