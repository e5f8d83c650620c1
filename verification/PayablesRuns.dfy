/** Accounts payable over whole runs: the control account, the vendor ledger and the invoices tell the same balance. */
module PayablesRuns {
  import opened Money
  import opened Sums
  import opened Ledger
  import opened Reversal
  import opened ControlAccount
  import opened AccountsPayable
  import opened VoucherJournals

  // ---- Steps ----

  datatype PayablesStep =
    | CreateInvoice(master: Master, activeVendors: set<VendorId>, input: InvoiceInput)
    | PostInvoice(master: Master, id: InvoiceId, control: AccountId, user: UserId)
    | CreateVoucher(master: Master, codes: CodeTable, voucher: VoucherInput, user: UserId)
    | ApproveVoucher(id: VoucherId, user: UserId)
    | PostVoucher(master: Master, id: VoucherId, control: AccountId, cash: AccountId, user: UserId)
    | CreateBatch(master: Master, entity: EntityId, number: nat, user: UserId)
    | ApproveBatch(id: BatchId, user: UserId)
    | ProcessBatch(master: Master, id: BatchId, ids: seq<VoucherId>, control: AccountId, cash: AccountId, user: UserId)
    | OtherCall(step: Step)   // any other call of the posting engine

  function ApplyPayables(p: Payables, s: PayablesStep): Payables {
    match s
    case CreateInvoice(master, activeVendors, input) => InvoiceCreated(p, master, activeVendors, input).payables
    case PostInvoice(master, id, control, user) => InvoicePosted(p, master, id, control, user).payables
    case CreateVoucher(master, codes, voucher, user) => VoucherCreated(p, master, codes, voucher, user).payables
    case ApproveVoucher(id, user) => VoucherApproved(p, id, user).payables
    case PostVoucher(master, id, control, cash, user) => VoucherPosted(p, master, id, control, cash, user).payables
    case CreateBatch(master, entity, number, user) => BatchCreated(p, master, entity, number, user).payables
    case ApproveBatch(id, user) => BatchApproved(p, id, user).payables
    case ProcessBatch(master, id, ids, control, cash, user) =>
      BatchProcessed(p, master, id, ids, control, cash, user).payables
    case OtherCall(step) => p.(ledger := Apply(p.ledger, step).ledger)
  }

  // ---- Vouchers pay their own vendor ----

  predicate PaysVendor(p: Payables, vendor: VendorId, a: PaymentAllocation) {
    a.invoice < |p.invoices| && p.invoices[a.invoice].vendor == vendor
  }

  predicate PaysOneVendor(p: Payables, vendor: VendorId, allocations: seq<PaymentAllocation>) {
    forall a :: a in allocations ==> PaysVendor(p, vendor, a)
  }

  predicate VouchersSound(p: Payables) {
    forall i :: 0 <= i < |p.vouchers| ==> PaysOneVendor(p, p.vouchers[i].vendor, p.vouchers[i].allocations)
  }

  /** Vendor, order and lines stay, and the status of an invoice that names an order. */
  predicate KeepsInvoice(i: Invoice, after: Invoice) {
    && after.vendor == i.vendor && after.order == i.order && after.lines == i.lines
    && (i.order.Some? ==> after.status == i.status)
    && (i.status == InvoiceStatus.POSTED ==> after.status == InvoiceStatus.POSTED)
  }

  /** Invoices are only added to, by ones that name no order. */
  predicate InvoicesKept(p: Payables, q: Payables) {
    && |p.invoices| <= |q.invoices|
    && (forall i :: 0 <= i < |p.invoices| ==> KeepsInvoice(p.invoices[i], q.invoices[i]))
    && (forall i :: |p.invoices| <= i < |q.invoices| ==> q.invoices[i].order.None?)
  }

  lemma {:induction false} PaymentsKeepInvoices(invoices: seq<Invoice>, allocations: seq<PaymentAllocation>)
    ensures forall i :: 0 <= i < |invoices| ==> KeepsInvoice(invoices[i], WithPayments(invoices, allocations)[i])
    decreases |allocations|
  {
    if allocations != [] {
      PaymentsKeepInvoices(invoices, allocations[..|allocations| - 1]);
    }
  }

  lemma {:induction false} ChecksPassed(p: Payables, vendor: VendorId, allocations: seq<AllocationInput>, i: nat)
    requires CheckAllocations(p, vendor, allocations).None? && i < |allocations|
    ensures CheckAllocation(p, vendor, allocations[i]).None?
  {
    if i > 0 {
      ChecksPassed(p, vendor, allocations[1..], i - 1);
    }
  }

  /** The vouchers of a state are those of the one before, up to their status, and perhaps one whose allocations were
      checked. */
  predicate VouchersFollow(p: Payables, q: Payables) {
    && |p.vouchers| <= |q.vouchers|
    && (forall i :: 0 <= i < |p.vouchers| ==>
          q.vouchers[i].vendor == p.vouchers[i].vendor && q.vouchers[i].allocations == p.vouchers[i].allocations)
    && (forall i :: |p.vouchers| <= i < |q.vouchers| ==>
          PaysOneVendor(p, q.vouchers[i].vendor, q.vouchers[i].allocations))
  }

  lemma VoucherCreatedFollows(p: Payables, master: Master, codes: CodeTable, input: VoucherInput, user: UserId)
    ensures
      var q := VoucherCreated(p, master, codes, input, user).payables;
      InvoicesKept(p, q) && VouchersFollow(p, q)
  {
    if VoucherCreated(p, master, codes, input, user).result.Ok? {
      var created := VoucherCreated(p, master, codes, input, user).payables.vouchers[|p.vouchers|];
      forall a | a in created.allocations
        ensures PaysVendor(p, input.vendor, a)
      {
        var i :| 0 <= i < |created.allocations| && created.allocations[i] == a;
        ChecksPassed(p, input.vendor, input.allocations, i);
      }
    }
  }

  lemma FollowTransitive(p: Payables, q: Payables, r: Payables)
    requires InvoicesKept(p, q) && VouchersFollow(p, q) && |q.vouchers| == |p.vouchers|
    requires InvoicesKept(q, r) && VouchersFollow(q, r) && |r.vouchers| == |q.vouchers|
    ensures InvoicesKept(p, r) && VouchersFollow(p, r) && |r.vouchers| == |p.vouchers|
  {
  }

  lemma VoucherPostedFollows(p: Payables, master: Master, id: VoucherId, control: AccountId, cash: AccountId,
                             user: UserId)
    ensures
      var q := VoucherPosted(p, master, id, control, cash, user).payables;
      InvoicesKept(p, q) && VouchersFollow(p, q) && |q.vouchers| == |p.vouchers|
  {
    hide PostSystem, VoucherJournal, WithPayments, Sum, PaysOneVendor;
    if id < |p.vouchers| {
      PaymentsKeepInvoices(p.invoices, p.vouchers[id].allocations);
    }
  }

  lemma {:induction false} BatchFollows(p: Payables, master: Master, ids: seq<VoucherId>, control: AccountId,
                                        cash: AccountId, user: UserId, count: nat)
    ensures
      var q := VouchersPosted(p, master, ids, control, cash, user, count).payables;
      InvoicesKept(p, q) && VouchersFollow(p, q) && |q.vouchers| == |p.vouchers|
    decreases |ids|
  {
    hide VoucherPosted;
    if ids != [] {
      if ids[0] < |p.vouchers| && p.vouchers[ids[0]].status == VoucherStatus.APPROVED {
        var posted := VoucherPosted(p, master, ids[0], control, cash, user);
        VoucherPostedFollows(p, master, ids[0], control, cash, user);
        if posted.result.Ok? {
          BatchFollows(posted.payables, master, ids[1..], control, cash, user, count + 1);
          FollowTransitive(p, posted.payables, VouchersPosted(p, master, ids, control, cash, user, count).payables);
        }
      } else {
        BatchFollows(p, master, ids[1..], control, cash, user, count);
      }
    }
  }

  lemma StepFollows(p: Payables, s: PayablesStep)
    ensures InvoicesKept(p, ApplyPayables(p, s)) && VouchersFollow(p, ApplyPayables(p, s))
  {
    hide PostSystem, VoucherPosted, VouchersPosted, VoucherCreated, InvoiceJournal, Total, Store, HasInvoice,
         PaysOneVendor;
    match s
    case PostVoucher(master, id, control, cash, user) => VoucherPostedFollows(p, master, id, control, cash, user);
    case ProcessBatch(master, id, ids, control, cash, user) => BatchFollows(p, master, ids, control, cash, user, 0);
    case CreateVoucher(master, codes, voucher, user) => VoucherCreatedFollows(p, master, codes, voucher, user);
    case _ =>
  }

  lemma StepVouchersSound(p: Payables, s: PayablesStep)
    requires VouchersSound(p)
    ensures VouchersSound(ApplyPayables(p, s))
  {
    StepFollows(p, s);
    var q := ApplyPayables(p, s);
    hide ApplyPayables;
    forall i | 0 <= i < |q.vouchers|
      ensures PaysOneVendor(q, q.vouchers[i].vendor, q.vouchers[i].allocations)
    {
      assert PaysOneVendor(p, q.vouchers[i].vendor, q.vouchers[i].allocations);
      forall a | a in q.vouchers[i].allocations
        ensures PaysVendor(q, q.vouchers[i].vendor, a)
      {
        assert PaysVendor(p, q.vouchers[i].vendor, a);
      }
    }
  }

  // ---- The three balances of a vendor ----

  predicate Concerns(e: Option<EntityId>, entity: EntityId) {
    e.None? || e.value == entity
  }

  /** Lines of the vendor on the control account, in one entity or in all. */
  function OnControl(c: AccountId, e: Option<EntityId>, v: VendorId): Filter {
    (entity: EntityId, account: AccountId, dims: Dimensions) =>
      account == c && dims.vendor == Some(v) && Concerns(e, entity)
  }

  function EntryBalance(e: Option<EntityId>, v: VendorId, row: VendorEntry): int {
    if row.vendor == v && Concerns(e, row.entity) then BalanceOf(row) else 0
  }

  function VendorBalance(e: Option<EntityId>, v: VendorId): VendorEntry -> int {
    (row: VendorEntry) => EntryBalance(e, v, row)
  }

  predicate DirectAndPosted(i: Invoice) {
    i.status == InvoiceStatus.POSTED && i.order.None?
  }

  function OpenOn(v: VendorId, i: Invoice): int {
    if i.vendor == v then (if DirectAndPosted(i) then Store(Total(i)) else 0) - i.amountPaid else 0
  }

  /** The total of the vendor's posted direct invoices, as stored, less everything paid on its invoices. */
  function OpenFor(v: VendorId): Invoice -> int {
    (i: Invoice) => OpenOn(v, i)
  }

  /** The control account owes the vendor what its ledger says, and extra. */
  predicate ControlAgrees(p: Payables, c: AccountId, e: Option<EntityId>, v: VendorId, extra: int) {
    Owed(p.ledger, OnControl(c, e, v)) == Sum(p.vendorLedger, VendorBalance(e, v)) + extra
  }

  /** The open invoices of the vendor are what its ledger says, and extra. */
  predicate InvoicesAgree(p: Payables, v: VendorId, extra: int) {
    Sum(p.invoices, OpenFor(v)) == Sum(p.vendorLedger, VendorBalance(None, v)) + extra
  }

  // ---- One control account, in no other role ----

  predicate InvoiceAvoids(i: Invoice, c: AccountId) {
    forall line :: line in i.lines ==> line.account != c
  }

  predicate AllocationsAvoid(allocations: seq<PaymentAllocation>, c: AccountId) {
    forall a :: a in allocations ==> !Names(a.wht, c) && !Names(a.vat, c)
  }

  predicate ControlRole(p: Payables, s: PayablesStep, c: AccountId) {
    match s
    case PostInvoice(_, id, control, _) => control == c && (id < |p.invoices| ==> InvoiceAvoids(p.invoices[id], c))
    case PostVoucher(_, id, control, cash, _) =>
      control == c && cash != c && (id < |p.vouchers| ==> AllocationsAvoid(p.vouchers[id].allocations, c))
    case ProcessBatch(_, _, ids, control, cash, _) =>
      && control == c && cash != c
      && forall id :: id in ids && id < |p.vouchers| ==> AllocationsAvoid(p.vouchers[id].allocations, c)
    case OtherCall(step) => Spares(p.ledger, step, c)
    case _ => true
  }

  // ---- Posting an invoice ----

  lemma InvoiceNet(i: Invoice, c: AccountId, e: Option<EntityId>, v: VendorId)
    requires InvoiceAvoids(i, c)
    ensures Net(StoreLines(i.entity, InvoiceJournal(i, c)), OnControl(c, e, v))
            == if i.vendor == v && Concerns(e, i.entity) then -Store(Total(i)) else 0
  {
    var f := OnControl(c, e, v);
    var expenses := ExpenseLines(i.vendor, i.lines);
    var last := LineInput(c, 0.0, Total(i), VendorDims(i.vendor));
    forall line | line in expenses
      ensures line.account != c
    {
      var k :| 0 <= k < |expenses| && expenses[k] == line;
      assert i.lines[k] in i.lines;
    }
    StoredAvoid(i.entity, expenses, c);
    AvoidedNet(StoreLines(i.entity, expenses), c, f);
    assert Store(0.0) == 0;
    hide Net, StoreLines, Total, ExpenseLines, Store;
    StoredConcat(i.entity, expenses, [last], f);
    StoredSingle(i.entity, last, f);
  }

  lemma InvoicePostedAgrees(p: Payables, master: Master, id: InvoiceId, user: UserId, c: AccountId, e: Option<EntityId>,
                            v: VendorId, extra: int)
    requires id < |p.invoices| ==> InvoiceAvoids(p.invoices[id], c)
    requires ControlAgrees(p, c, e, v, extra)
    ensures ControlAgrees(InvoicePosted(p, master, id, c, user).payables, c, e, v, extra)
  {
    if id < |p.invoices| {
      var i := p.invoices[id];
      var input := EntryInput(i.entity, i.invoiceDate, InvoiceJournal(i, c));
      InvoiceNet(i, c, e, v);
      hide PostSystem, Owed, Net, Sum, StoreLines, InvoiceJournal, Total, Store;
      SystemEntryMoves(p.ledger, master, input, user, OnControl(c, e, v));
      var entry := VendorEntry(i.entity, i.vendor, i.invoiceDate, 0, Store(Total(i)));
      SumAppend(p.vendorLedger, entry, VendorBalance(e, v));
    }
  }

  lemma InvoicePostedOpens(p: Payables, master: Master, id: InvoiceId, c: AccountId, user: UserId, v: VendorId,
                           extra: int)
    requires InvoicesAgree(p, v, extra)
    ensures InvoicesAgree(InvoicePosted(p, master, id, c, user).payables, v, extra)
  {
    if id < |p.invoices| {
      var i := p.invoices[id];
      hide PostSystem, Sum, InvoiceJournal, Store;
      var posted := i.(status := InvoiceStatus.POSTED);
      assert Total(posted) == Total(i);
      hide Total;
      SumUpdate(p.invoices, id, posted, OpenFor(v));
      SumAppend(p.vendorLedger, VendorEntry(i.entity, i.vendor, i.invoiceDate, 0, Store(Total(i))),
                VendorBalance(None, v));
    }
  }

  // ---- Posting a voucher ----

  lemma CreditsAvoid(allocations: seq<PaymentAllocation>, c: AccountId)
    requires AllocationsAvoid(allocations, c)
    ensures forall d :: d in TaxCredits(allocations) ==> d.authority != c
  {
    var credits := TaxCredits(allocations);
    CreditsGrouped(allocations, c);
    forall i | 0 <= i < |allocations|
      ensures !Names(allocations[i].wht, c) && !Names(allocations[i].vat, c)
    {
      assert allocations[i] in allocations;
    }
    assert !Listed(credits, c);
    forall d | d in credits
      ensures d.authority != c
    {
      var k :| 0 <= k < |credits| && credits[k] == d;
    }
  }

  lemma TaxLinesAvoid(v: VendorId, credits: seq<Deduction>, c: AccountId)
    requires forall d :: d in credits ==> d.authority != c
    ensures forall line :: line in TaxLines(v, credits) ==> line.account != c
  {
    forall line | line in TaxLines(v, credits)
      ensures line.account != c
    {
      var k :| 0 <= k < |credits| && TaxLines(v, credits)[k] == line;
      assert credits[k] in credits;
    }
  }

  lemma VoucherNet(w: Voucher, cash: AccountId, c: AccountId, e: Option<EntityId>, v: VendorId)
    requires cash != c && AllocationsAvoid(w.allocations, c)
    ensures Net(StoreLines(w.entity, VoucherJournal(w, c, cash)), OnControl(c, e, v))
            == if w.vendor == v && Concerns(e, w.entity) then Sum(w.allocations, GrossOf) else 0
  {
    var f := OnControl(c, e, v);
    var gross := Sum(w.allocations, GrossOf);
    var first := LineInput(c, gross as real, 0.0, VendorDims(w.vendor));
    var second := LineInput(cash, 0.0, Sum(w.allocations, CashOf) as real, VendorDims(w.vendor));
    var taxes := TaxLines(w.vendor, TaxCredits(w.allocations));
    assert VoucherJournal(w, c, cash) == ([first] + [second]) + taxes;
    CreditsAvoid(w.allocations, c);
    TaxLinesAvoid(w.vendor, TaxCredits(w.allocations), c);
    StoredAvoid(w.entity, taxes, c);
    AvoidedNet(StoreLines(w.entity, taxes), c, f);
    StoreWhole(gross);
    hide Net, StoreLines, Sum, TaxLines, TaxCredits, VoucherJournal;
    StoredConcat(w.entity, [first] + [second], taxes, f);
    StoredConcat(w.entity, [first], [second], f);
    StoredSingle(w.entity, first, f);
    StoredSingle(w.entity, second, f);
  }

  lemma VoucherPostedAgrees(p: Payables, master: Master, id: VoucherId, cash: AccountId, user: UserId, c: AccountId,
                            e: Option<EntityId>, v: VendorId, extra: int)
    requires cash != c && (id < |p.vouchers| ==> AllocationsAvoid(p.vouchers[id].allocations, c))
    requires ControlAgrees(p, c, e, v, extra)
    ensures ControlAgrees(VoucherPosted(p, master, id, c, cash, user).payables, c, e, v, extra)
  {
    if id < |p.vouchers| {
      var w := p.vouchers[id];
      var input := EntryInput(w.entity, w.paymentDate, VoucherJournal(w, c, cash));
      VoucherNet(w, cash, c, e, v);
      hide PostSystem, Owed, Net, Sum, StoreLines, VoucherJournal, WithPayments;
      SystemEntryMoves(p.ledger, master, input, user, OnControl(c, e, v));
      var entry := VendorEntry(w.entity, w.vendor, w.paymentDate, Sum(w.allocations, GrossOf), 0);
      SumAppend(p.vendorLedger, entry, VendorBalance(e, v));
    }
  }

  function Paid(i: Invoice, amount: int): Invoice {
    i.(amountPaid := i.amountPaid + amount)
  }

  lemma PaidLowers(invoices: seq<Invoice>, id: InvoiceId, amount: int, v: VendorId)
    requires id < |invoices|
    ensures Sum(invoices[id := Paid(invoices[id], amount)], OpenFor(v))
            == Sum(invoices, OpenFor(v)) - if invoices[id].vendor == v then amount else 0
  {
    assert Total(Paid(invoices[id], amount)) == Total(invoices[id]);
    hide Sum, Total, Store;
    SumUpdate(invoices, id, Paid(invoices[id], amount), OpenFor(v));
  }

  /** Payments lower what is open for the vendor by what they allocate, and for other vendors by nothing. */
  lemma {:induction false} PaymentsLower(invoices: seq<Invoice>, vendor: VendorId, allocations: seq<PaymentAllocation>,
                                         v: VendorId)
    requires forall a :: a in allocations ==> a.invoice < |invoices| && invoices[a.invoice].vendor == vendor
    ensures Sum(WithPayments(invoices, allocations), OpenFor(v))
            == Sum(invoices, OpenFor(v)) - if vendor == v then Sum(allocations, GrossOf) else 0
    decreases |allocations|
  {
    hide Sum, OpenFor;
    if allocations == [] {
      assert Sum(allocations, GrossOf) == 0 by {
        SumZero(allocations, GrossOf);
      }
    } else {
      var n := |allocations| - 1;
      var a, before := allocations[n], WithPayments(invoices, allocations[..n]);
      PaymentsLower(invoices, vendor, allocations[..n], v);
      PaymentsKeepInvoices(invoices, allocations[..n]);
      assert allocations == allocations[..n] + [a] && a in allocations;
      SumAppend(allocations[..n], a, GrossOf);
      PaidLowers(before, a.invoice, a.amount, v);
      assert WithPayments(invoices, allocations) == before[a.invoice := Paid(before[a.invoice], a.amount)];
    }
  }

  lemma VoucherPostedLowers(p: Payables, master: Master, id: VoucherId, c: AccountId, cash: AccountId, user: UserId,
                            v: VendorId, extra: int)
    requires VouchersSound(p) && InvoicesAgree(p, v, extra)
    ensures InvoicesAgree(VoucherPosted(p, master, id, c, cash, user).payables, v, extra)
  {
    if id < |p.vouchers| {
      var w := p.vouchers[id];
      assert PaysOneVendor(p, w.vendor, w.allocations);
      forall a | a in w.allocations
        ensures a.invoice < |p.invoices| && p.invoices[a.invoice].vendor == w.vendor
      {
        assert PaysVendor(p, w.vendor, a);
      }
      hide PostSystem, Sum, VoucherJournal, WithPayments, VouchersSound;
      PaymentsLower(p.invoices, w.vendor, w.allocations, v);
      SumAppend(p.vendorLedger, VendorEntry(w.entity, w.vendor, w.paymentDate, Sum(w.allocations, GrossOf), 0),
                VendorBalance(None, v));
    }
  }

  // ---- Batches ----

  lemma {:induction false} BatchAgrees(p: Payables, master: Master, ids: seq<VoucherId>, cash: AccountId, user: UserId,
                                       count: nat, c: AccountId, e: Option<EntityId>, v: VendorId, extra: int)
    requires cash != c
    requires forall id :: id in ids && id < |p.vouchers| ==> AllocationsAvoid(p.vouchers[id].allocations, c)
    requires ControlAgrees(p, c, e, v, extra)
    ensures ControlAgrees(VouchersPosted(p, master, ids, c, cash, user, count).payables, c, e, v, extra)
    decreases |ids|
  {
    hide VoucherPosted, ControlAgrees, AllocationsAvoid;
    if ids != [] {
      if ids[0] < |p.vouchers| && p.vouchers[ids[0]].status == VoucherStatus.APPROVED {
        assert ids[0] in ids;
        var posted := VoucherPosted(p, master, ids[0], c, cash, user);
        VoucherPostedAgrees(p, master, ids[0], cash, user, c, e, v, extra);
        VoucherPostedFollows(p, master, ids[0], c, cash, user);
        if posted.result.Ok? {
          BatchAgrees(posted.payables, master, ids[1..], cash, user, count + 1, c, e, v, extra);
        }
      } else {
        BatchAgrees(p, master, ids[1..], cash, user, count, c, e, v, extra);
      }
    }
  }

  lemma {:induction false} BatchLowers(p: Payables, master: Master, ids: seq<VoucherId>, c: AccountId, cash: AccountId,
                                       user: UserId, count: nat, v: VendorId, extra: int)
    requires VouchersSound(p) && InvoicesAgree(p, v, extra)
    ensures InvoicesAgree(VouchersPosted(p, master, ids, c, cash, user, count).payables, v, extra)
    decreases |ids|
  {
    hide VoucherPosted, InvoicesAgree, VouchersSound;
    if ids != [] {
      if ids[0] < |p.vouchers| && p.vouchers[ids[0]].status == VoucherStatus.APPROVED {
        var posted := VoucherPosted(p, master, ids[0], c, cash, user);
        VoucherPostedLowers(p, master, ids[0], c, cash, user, v, extra);
        StepVouchersSound(p, PostVoucher(master, ids[0], c, cash, user));
        if posted.result.Ok? {
          BatchLowers(posted.payables, master, ids[1..], c, cash, user, count + 1, v, extra);
        }
      } else {
        BatchLowers(p, master, ids[1..], c, cash, user, count, v, extra);
      }
    }
  }

  // ---- Steps and runs ----

  lemma StepControlAgrees(p: Payables, s: PayablesStep, c: AccountId, e: Option<EntityId>, v: VendorId, extra: int)
    requires ControlAgrees(p, c, e, v, extra) && ControlRole(p, s, c)
    ensures ControlAgrees(ApplyPayables(p, s), c, e, v, extra)
  {
    hide InvoicePosted, VoucherPosted, VouchersPosted, Owed, Sum, Apply, Spares, AllocationsAvoid, InvoiceAvoids;
    match s
    case PostInvoice(master, id, _, user) => InvoicePostedAgrees(p, master, id, user, c, e, v, extra);
    case PostVoucher(master, id, _, cash, user) => VoucherPostedAgrees(p, master, id, cash, user, c, e, v, extra);
    case ProcessBatch(master, id, ids, _, cash, user) => BatchAgrees(p, master, ids, cash, user, 0, c, e, v, extra);
    case OtherCall(step) => SparedUnmoved(p.ledger, step, c, OnControl(c, e, v));
    case _ =>
  }

  lemma StepInvoicesAgree(p: Payables, s: PayablesStep, v: VendorId, extra: int)
    requires VouchersSound(p) && InvoicesAgree(p, v, extra)
    ensures InvoicesAgree(ApplyPayables(p, s), v, extra)
  {
    hide InvoicePosted, VoucherPosted, VouchersPosted, Sum, Apply, VouchersSound, Total, Store, StoreInvoiceLine;
    var q := ApplyPayables(p, s);
    match s
    case CreateInvoice(_, _, _) =>
      if q.invoices != p.invoices {
        SumAppend(p.invoices, q.invoices[|p.invoices|], OpenFor(v));
      }
    case PostInvoice(master, id, control, user) => InvoicePostedOpens(p, master, id, control, user, v, extra);
    case PostVoucher(master, id, control, cash, user) =>
      VoucherPostedLowers(p, master, id, control, cash, user, v, extra);
    case ProcessBatch(master, id, ids, control, cash, user) =>
      BatchLowers(p, master, ids, control, cash, user, 0, v, extra);
    case _ =>
  }
}
