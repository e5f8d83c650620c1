/** Accounts payable: direct invoices, payment vouchers and the vendor ledger, over a posting engine. */
module AccountsPayable {
  import opened Money
  import opened Sums
  import opened Calendar
  import opened Ledger
  import opened PostingEngine
  import opened TaxCodes

  type VendorId = nat
  type InvoiceId = nat
  type VoucherId = nat
  type BatchId = nat
  type OrderId = nat
  type TaxCodeId = nat

  const ONE_CENT := 1.0

  datatype InvoiceStatus = DRAFT | PENDING_MATCH | MATCHED | MATCHED_WITH_VARIANCE | POSTED | CANCELLED

  datatype VoucherStatus = DRAFT | PENDING_APPROVAL | APPROVED | POSTED | CANCELLED

  datatype BatchStatus = DRAFT | APPROVED | PROCESSED | CANCELLED

  /** ordered: the line bills a line of a purchase order. */
  datatype InvoiceLine = InvoiceLine(account: AccountId, quantity: real, unitCost: int, ordered: bool)

  /** order: the purchase order the invoice names, if any; procurement posts those that name one. */
  datatype Invoice = Invoice(
    entity: EntityId, vendor: VendorId, number: nat, order: Option<OrderId>, invoiceDate: Date, status: InvoiceStatus,
    lines: seq<InvoiceLine>, amountPaid: int)

  datatype Deduction = Deduction(authority: AccountId, amount: int)

  datatype PaymentAllocation = PaymentAllocation(
    invoice: InvoiceId, amount: int, wht: Option<Deduction>, vat: Option<Deduction>)

  datatype Voucher = Voucher(
    entity: EntityId, number: nat, vendor: VendorId, batch: Option<BatchId>, paymentDate: Date, status: VoucherStatus,
    createdBy: UserId, allocations: seq<PaymentAllocation>)

  datatype Batch = Batch(entity: EntityId, number: nat, status: BatchStatus, createdBy: UserId)

  datatype VendorEntry = VendorEntry(entity: EntityId, vendor: VendorId, date: Date, debit: int, credit: int)

  datatype Payables = Payables(
    ledger: Ledger, invoices: seq<Invoice>, vouchers: seq<Voucher>, batches: seq<Batch>, vendorLedger: seq<VendorEntry>)

  datatype PayablesOutcome = PayablesOutcome(payables: Payables, result: Result<nat>)

  function VendorDims(v: VendorId): Dimensions {
    NO_DIMENSIONS.(vendor := Some(v))
  }

  // ---- Direct invoices ----

  datatype InvoiceLineInput = InvoiceLineInput(account: AccountId, quantity: real, unitCost: real)

  datatype InvoiceInput = InvoiceInput(
    entity: EntityId, vendor: VendorId, number: nat, invoiceDate: Date, lines: seq<InvoiceLineInput>)

  /** quantity is a numeric(18,4) column. */
  function StoreInvoiceLine(line: InvoiceLineInput, ordered: bool): InvoiceLine {
    InvoiceLine(line.account, Store(line.quantity * 10000.0) as real / 10000.0, Store(line.unitCost), ordered)
  }

  predicate HasInvoice(invoices: seq<Invoice>, entity: EntityId, vendor: VendorId, number: nat) {
    exists i :: 0 <= i < |invoices|
                && invoices[i].entity == entity && invoices[i].vendor == vendor && invoices[i].number == number
  }

  function InvoiceCreated(p: Payables, master: Master, activeVendors: set<VendorId>,
                          input: InvoiceInput): PayablesOutcome {
    if input.entity !in master.activeEntities then PayablesOutcome(p, Err(NotFound))
    else if input.vendor !in activeVendors then PayablesOutcome(p, Err(NotFound))
    else if HasInvoice(p.invoices, input.entity, input.vendor, input.number) then PayablesOutcome(p, Err(Conflict))
    else
      var lines := seq(|input.lines|, i requires 0 <= i < |input.lines| => StoreInvoiceLine(input.lines[i], false));
      var invoice := Invoice(input.entity, input.vendor, input.number, None, input.invoiceDate, InvoiceStatus.DRAFT,
                             lines, 0);
      PayablesOutcome(p.(invoices := p.invoices + [invoice]), Ok(|p.invoices|))
  }

  /** In cents, not rounded. */
  function LineValue(line: InvoiceLine): real {
    line.quantity * line.unitCost as real
  }

  function Total(invoice: Invoice): real {
    SumReal(invoice.lines, LineValue)
  }

  function ExpenseLine(v: VendorId, line: InvoiceLine): LineInput {
    LineInput(line.account, LineValue(line), 0.0, VendorDims(v))
  }

  function ExpenseLines(v: VendorId, lines: seq<InvoiceLine>): (journal: seq<LineInput>)
    ensures |journal| == |lines|
  {
    seq(|lines|, i requires 0 <= i < |lines| => ExpenseLine(v, lines[i]))
  }

  function InvoiceJournal(invoice: Invoice, control: AccountId): seq<LineInput> {
    ExpenseLines(invoice.vendor, invoice.lines) + [LineInput(control, 0.0, Total(invoice), VendorDims(invoice.vendor))]
  }

  function InvoicePosted(p: Payables, master: Master, id: InvoiceId, control: AccountId,
                         user: UserId): PayablesOutcome {
    if id >= |p.invoices| then PayablesOutcome(p, Err(NotFound))
    else
      var invoice := p.invoices[id];
      if invoice.order.Some? then PayablesOutcome(p, Err(BadRequest))
      else if invoice.status != InvoiceStatus.DRAFT then PayablesOutcome(p, Err(Conflict))
      else
        var input := EntryInput(invoice.entity, invoice.invoiceDate, InvoiceJournal(invoice, control));
        var posted := PostSystem(p.ledger, master, input, user);
        match posted.result
        case Err(e) => PayablesOutcome(p.(ledger := posted.ledger), Err(e))
        case Ok(_) =>
          var entry := VendorEntry(invoice.entity, invoice.vendor, invoice.invoiceDate, 0, Store(Total(invoice)));
          PayablesOutcome(p.(ledger := posted.ledger,
                             invoices := p.invoices[id := invoice.(status := InvoiceStatus.POSTED)],
                             vendorLedger := p.vendorLedger + [entry]), Ok(id))
  }

  // ---- Creating vouchers ----

  datatype TaxTerms = TaxTerms(rate: real, authority: AccountId)

  /** A tax code, or a rate and an authority account given outright. */
  datatype TaxInput = TaxInput(code: Option<TaxCodeId>, rate: Option<real>, authority: Option<AccountId>)

  datatype AllocationInput = AllocationInput(invoice: InvoiceId, amount: real, wht: TaxInput, vat: TaxInput)

  datatype VoucherInput = VoucherInput(
    entity: EntityId, number: nat, vendor: VendorId, batch: Option<BatchId>, paymentDate: Date,
    allocations: seq<AllocationInput>)

  type CodeTable = map<TaxCodeId, TaxCode>

  function CheckAllocation(p: Payables, vendor: VendorId, a: AllocationInput): Option<Error> {
    if a.invoice >= |p.invoices| then Some(NotFound)
    else
      var invoice := p.invoices[a.invoice];
      if invoice.vendor != vendor then Some(BadRequest)
      else if invoice.status != InvoiceStatus.POSTED then Some(Conflict)
      else if a.amount > Total(invoice) - invoice.amountPaid as real + ONE_CENT then Some(BadRequest)
      else None
  }

  /** The first allocation that fails decides the error. */
  function CheckAllocations(p: Payables, vendor: VendorId, allocations: seq<AllocationInput>): Option<Error> {
    if allocations == [] then None
    else
      var first := CheckAllocation(p, vendor, allocations[0]);
      if first.Some? then first else CheckAllocations(p, vendor, allocations[1..])
  }

  predicate CodesKnown(codes: CodeTable, allocations: seq<AllocationInput>) {
    forall a :: a in allocations ==>
      (a.wht.code.Some? ==> a.wht.code.value in codes) && (a.vat.code.Some? ==> a.vat.code.value in codes)
  }

  function Resolve(codes: CodeTable, t: TaxInput): Option<TaxTerms> {
    if t.code.Some? then
      (if t.code.value in codes then Some(TaxTerms(codes[t.code.value].rate, codes[t.code.value].authority)) else None)
    else if t.rate.Some? && t.rate.value != 0.0 && t.authority.Some? then
      Some(TaxTerms(t.rate.value, t.authority.value))
    else None
  }

  function Deducted(codes: CodeTable, amount: real, t: TaxInput): Option<Deduction> {
    match Resolve(codes, t)
    case None => None
    case Some(terms) => Some(Deduction(terms.authority, Store(FractionOf(amount, terms.rate))))
  }

  function StoreAllocation(codes: CodeTable, a: AllocationInput): PaymentAllocation {
    PaymentAllocation(a.invoice, Store(a.amount), Deducted(codes, a.amount, a.wht), Deducted(codes, a.amount, a.vat))
  }

  function StoreAllocations(codes: CodeTable, allocations: seq<AllocationInput>): (stored: seq<PaymentAllocation>)
    ensures |stored| == |allocations|
  {
    seq(|allocations|, i requires 0 <= i < |allocations| => StoreAllocation(codes, allocations[i]))
  }

  predicate HasVoucher(vouchers: seq<Voucher>, entity: EntityId, number: nat) {
    exists i :: 0 <= i < |vouchers| && vouchers[i].entity == entity && vouchers[i].number == number
  }

  function VoucherCreated(p: Payables, master: Master, codes: CodeTable, input: VoucherInput,
                          user: UserId): PayablesOutcome {
    if input.entity !in master.activeEntities then PayablesOutcome(p, Err(NotFound))
    else
      match CheckAllocations(p, input.vendor, input.allocations)
      case Some(e) => PayablesOutcome(p, Err(e))
      case None =>
        if HasVoucher(p.vouchers, input.entity, input.number) then PayablesOutcome(p, Err(Conflict))
        else if !CodesKnown(codes, input.allocations) then PayablesOutcome(p, Err(NotFound))
        else
          var voucher := Voucher(input.entity, input.number, input.vendor, input.batch, input.paymentDate,
                                 VoucherStatus.DRAFT, user, StoreAllocations(codes, input.allocations));
          PayablesOutcome(p.(vouchers := p.vouchers + [voucher]), Ok(|p.vouchers|))
  }

  function VoucherApproved(p: Payables, id: VoucherId, user: UserId): PayablesOutcome {
    if id >= |p.vouchers| then PayablesOutcome(p, Err(NotFound))
    else if p.vouchers[id].status != VoucherStatus.DRAFT then PayablesOutcome(p, Err(Conflict))
    else if p.vouchers[id].createdBy == user then PayablesOutcome(p, Err(BadRequest))
    else PayablesOutcome(p.(vouchers := p.vouchers[id := p.vouchers[id].(status := VoucherStatus.APPROVED)]), Ok(id))
  }

  // ---- Posting vouchers ----

  function AmountOf(d: Option<Deduction>): int {
    match d
    case None => 0
    case Some(x) => x.amount
  }

  function GrossOf(a: PaymentAllocation): int { a.amount }

  function CashOf(a: PaymentAllocation): int { a.amount - AmountOf(a.wht) - AmountOf(a.vat) }

  /** Map.set: the amount joins its authority's, or goes behind the others. */
  function Credited(credits: seq<Deduction>, d: Option<Deduction>): seq<Deduction> {
    if d.None? then credits
    else if credits == [] then [d.value]
    else if credits[0].authority == d.value.authority then
      [Deduction(d.value.authority, credits[0].amount + d.value.amount)] + credits[1..]
    else [credits[0]] + Credited(credits[1..], d)
  }

  /** What each tax authority is credited, authorities in the order they first appear. */
  function TaxCredits(allocations: seq<PaymentAllocation>): seq<Deduction> {
    if allocations == [] then []
    else
      var last := allocations[|allocations| - 1];
      Credited(Credited(TaxCredits(allocations[..|allocations| - 1]), last.wht), last.vat)
  }

  function TaxLine(v: VendorId, d: Deduction): LineInput {
    LineInput(d.authority, 0.0, d.amount as real, VendorDims(v))
  }

  function TaxLines(v: VendorId, credits: seq<Deduction>): (lines: seq<LineInput>)
    ensures |lines| == |credits|
  {
    seq(|credits|, i requires 0 <= i < |credits| => TaxLine(v, credits[i]))
  }

  function VoucherJournal(v: Voucher, control: AccountId, cash: AccountId): seq<LineInput> {
    [LineInput(control, Sum(v.allocations, GrossOf) as real, 0.0, VendorDims(v.vendor)),
     LineInput(cash, 0.0, Sum(v.allocations, CashOf) as real, VendorDims(v.vendor))]
    + TaxLines(v.vendor, TaxCredits(v.allocations))
  }

  /** amountPaid grows by each allocation in turn; a foreign key keeps the invoices in range. */
  function WithPayments(invoices: seq<Invoice>, allocations: seq<PaymentAllocation>): (paid: seq<Invoice>)
    ensures |paid| == |invoices|
    decreases |allocations|
  {
    if allocations == [] then invoices
    else
      var a := allocations[|allocations| - 1];
      var paid := WithPayments(invoices, allocations[..|allocations| - 1]);
      if a.invoice < |paid| then
        paid[a.invoice := paid[a.invoice].(amountPaid := paid[a.invoice].amountPaid + a.amount)]
      else paid
  }

  function VoucherPosted(p: Payables, master: Master, id: VoucherId, control: AccountId, cash: AccountId,
                         user: UserId): PayablesOutcome {
    if id >= |p.vouchers| then PayablesOutcome(p, Err(NotFound))
    else
      var v := p.vouchers[id];
      if v.status != VoucherStatus.APPROVED then PayablesOutcome(p, Err(Conflict))
      else
        var posted := PostSystem(p.ledger, master,
                                 EntryInput(v.entity, v.paymentDate, VoucherJournal(v, control, cash)), user);
        match posted.result
        case Err(e) => PayablesOutcome(p.(ledger := posted.ledger), Err(e))
        case Ok(_) =>
          var entry := VendorEntry(v.entity, v.vendor, v.paymentDate, Sum(v.allocations, GrossOf), 0);
          PayablesOutcome(p.(ledger := posted.ledger, invoices := WithPayments(p.invoices, v.allocations),
                             vouchers := p.vouchers[id := v.(status := VoucherStatus.POSTED)],
                             vendorLedger := p.vendorLedger + [entry]), Ok(id))
  }

  // ---- Batches ----

  predicate HasBatch(batches: seq<Batch>, entity: EntityId, number: nat) {
    exists i :: 0 <= i < |batches| && batches[i].entity == entity && batches[i].number == number
  }

  function BatchCreated(p: Payables, master: Master, entity: EntityId, number: nat, user: UserId): PayablesOutcome {
    if entity !in master.activeEntities then PayablesOutcome(p, Err(NotFound))
    else if HasBatch(p.batches, entity, number) then PayablesOutcome(p, Err(Conflict))
    else PayablesOutcome(p.(batches := p.batches + [Batch(entity, number, BatchStatus.DRAFT, user)]), Ok(|p.batches|))
  }

  function BatchApproved(p: Payables, id: BatchId, user: UserId): PayablesOutcome {
    if id >= |p.batches| then PayablesOutcome(p, Err(NotFound))
    else if p.batches[id].status != BatchStatus.DRAFT then PayablesOutcome(p, Err(Conflict))
    else if p.batches[id].createdBy == user then PayablesOutcome(p, Err(BadRequest))
    else PayablesOutcome(p.(batches := p.batches[id := p.batches[id].(status := BatchStatus.APPROVED)]), Ok(id))
  }

  /** ids is what the query for the batch's vouchers returns, in whatever order the database gives it. */
  predicate BatchVouchers(p: Payables, id: BatchId, ids: seq<VoucherId>) {
    && (forall j, k :: 0 <= j < k < |ids| ==> ids[j] != ids[k])
    && (forall v :: v in ids ==> v < |p.vouchers| && p.vouchers[v].batch == Some(id))
    && (forall v :: 0 <= v < |p.vouchers| && p.vouchers[v].batch == Some(id) ==> v in ids)
  }

  /** The approved vouchers in turn; the first that fails ends the run and leaves the ones before it posted. */
  function VouchersPosted(p: Payables, master: Master, ids: seq<VoucherId>, control: AccountId, cash: AccountId,
                          user: UserId, count: nat): PayablesOutcome
    decreases |ids|
  {
    if ids == [] then PayablesOutcome(p, Ok(count))
    else if ids[0] < |p.vouchers| && p.vouchers[ids[0]].status == VoucherStatus.APPROVED then
      var posted := VoucherPosted(p, master, ids[0], control, cash, user);
      match posted.result
      case Err(e) => PayablesOutcome(posted.payables, Err(e))
      case Ok(_) => VouchersPosted(posted.payables, master, ids[1..], control, cash, user, count + 1)
    else VouchersPosted(p, master, ids[1..], control, cash, user, count)
  }

  function BatchProcessed(p: Payables, master: Master, id: BatchId, ids: seq<VoucherId>, control: AccountId,
                          cash: AccountId, user: UserId): PayablesOutcome {
    if id >= |p.batches| then PayablesOutcome(p, Err(NotFound))
    else if p.batches[id].status != BatchStatus.APPROVED then PayablesOutcome(p, Err(Conflict))
    else
      var posted := VouchersPosted(p, master, ids, control, cash, user, 0);
      match posted.result
      case Err(e) => PayablesOutcome(posted.payables, Err(e))
      case Ok(count) =>
        var q := posted.payables;
        PayablesOutcome(q.(batches := p.batches[id := p.batches[id].(status := BatchStatus.PROCESSED)]), Ok(count))
  }

  // ---- The vendor statement ----

  function BalanceOf(e: VendorEntry): int {
    e.credit - e.debit
  }

  /** The rows a statement selects: of the vendor, in the entity, between two dates where they are given. */
  datatype Selection = Selection(entity: EntityId, vendor: VendorId, from: Option<Date>, to: Option<Date>)

  predicate InStatement(e: VendorEntry, s: Selection) {
    && e.entity == s.entity && e.vendor == s.vendor
    && (s.from.Some? ==> Time(e.date) >= Time(s.from.value)) && (s.to.Some? ==> Time(e.date) <= Time(s.to.value))
  }

  function StatementRows(rows: seq<VendorEntry>, s: Selection): seq<VendorEntry> {
    if rows == [] then []
    else (if InStatement(rows[0], s) then [rows[0]] else []) + StatementRows(rows[1..], s)
  }

  /** entries is what the query returns: the selected rows by date, in whatever order the database gives equal dates. */
  predicate StatementQueried(rows: seq<VendorEntry>, s: Selection, entries: seq<VendorEntry>) {
    && multiset(entries) == multiset(StatementRows(rows, s))
    && forall j, k :: 0 <= j < k < |entries| ==> Time(entries[j].date) <= Time(entries[k].date)
  }

  // ---- The service ----

  class PayablesService {
    const engine: Engine
    var invoices: seq<Invoice>
    var vouchers: seq<Voucher>
    var batches: seq<Batch>
    var vendorLedger: seq<VendorEntry>

    constructor (engine: Engine)
      ensures this.engine == engine && invoices == [] && vouchers == [] && batches == [] && vendorLedger == []
    {
      this.engine := engine;
      invoices, vouchers, batches, vendorLedger := [], [], [], [];
    }

    function State(): Payables
      reads this, engine
    {
      Payables(engine.Books(), invoices, vouchers, batches, vendorLedger)
    }

    method CreateInvoice(master: Master, activeVendors: set<VendorId>, input: InvoiceInput)
      returns (result: Result<nat>)
      modifies this`invoices
      ensures PayablesOutcome(State(), result) == InvoiceCreated(old(State()), master, activeVendors, input)
    {
      if input.entity !in master.activeEntities {
        return Err(NotFound);
      }
      if input.vendor !in activeVendors {
        return Err(NotFound);
      }
      if HasInvoice(invoices, input.entity, input.vendor, input.number) {
        return Err(Conflict);
      }
      var lines := seq(|input.lines|, i requires 0 <= i < |input.lines| => StoreInvoiceLine(input.lines[i], false));
      invoices := invoices + [Invoice(input.entity, input.vendor, input.number, None, input.invoiceDate,
                                      InvoiceStatus.DRAFT, lines, 0)];
      return Ok(|invoices| - 1);
    }

    method PostInvoice(master: Master, id: InvoiceId, control: AccountId, user: UserId) returns (result: Result<nat>)
      modifies this, engine
      ensures PayablesOutcome(State(), result) == InvoicePosted(old(State()), master, id, control, user)
    {
      hide PostSystem, Store;
      if id >= |invoices| {
        return Err(NotFound);
      }
      var invoice := invoices[id];
      if invoice.order.Some? {
        return Err(BadRequest);
      }
      if invoice.status != InvoiceStatus.DRAFT {
        return Err(Conflict);
      }
      var journalLines, total := JournalOf(invoice);
      journalLines := journalLines + [LineInput(control, 0.0, total, VendorDims(invoice.vendor))];
      var posted := engine.PostSystemEntry(master, EntryInput(invoice.entity, invoice.invoiceDate, journalLines), user);
      if posted.Err? {
        return Err(posted.error);
      }
      invoices := invoices[id := invoice.(status := InvoiceStatus.POSTED)];
      vendorLedger := vendorLedger
                      + [VendorEntry(invoice.entity, invoice.vendor, invoice.invoiceDate, 0, Store(total))];
      return Ok(id);
    }

    /** The expense lines of an invoice, and their running total. */
    method JournalOf(invoice: Invoice) returns (journalLines: seq<LineInput>, total: real)
      ensures journalLines == ExpenseLines(invoice.vendor, invoice.lines) && total == Total(invoice)
    {
      journalLines, total := [], 0.0;
      for i := 0 to |invoice.lines|
        invariant journalLines == ExpenseLines(invoice.vendor, invoice.lines[..i])
        invariant total == SumReal(invoice.lines[..i], LineValue)
      {
        var line := invoice.lines[i];
        var value := line.quantity * line.unitCost as real;
        assert value == LineValue(line);
        assert invoice.lines[..i + 1] == invoice.lines[..i] + [line];
        SumRealAppend(invoice.lines[..i], line, LineValue);
        total := total + value;
        journalLines := journalLines + [LineInput(line.account, value, 0.0, VendorDims(invoice.vendor))];
      }
      assert invoice.lines[..|invoice.lines|] == invoice.lines;
    }

    method CreatePaymentVoucher(master: Master, codes: CodeTable, input: VoucherInput, user: UserId)
      returns (result: Result<nat>)
      modifies this`vouchers
      ensures PayablesOutcome(State(), result) == VoucherCreated(old(State()), master, codes, input, user)
    {
      if input.entity !in master.activeEntities {
        return Err(NotFound);
      }
      var failed := CheckEach(input.vendor, input.allocations);
      if failed.Some? {
        return Err(failed.value);
      }
      if HasVoucher(vouchers, input.entity, input.number) {
        return Err(Conflict);
      }
      if !CodesKnown(codes, input.allocations) {
        return Err(NotFound);
      }
      var allocations := StoreAllocations(codes, input.allocations);
      vouchers := vouchers + [Voucher(input.entity, input.number, input.vendor, input.batch, input.paymentDate,
                                      VoucherStatus.DRAFT, user, allocations)];
      return Ok(|vouchers| - 1);
    }

    method CheckEach(vendor: VendorId, allocations: seq<AllocationInput>) returns (failed: Option<Error>)
      ensures failed == CheckAllocations(State(), vendor, allocations)
    {
      hide CheckAllocation;
      var i := 0;
      while i < |allocations|
        invariant 0 <= i <= |allocations|
        invariant CheckAllocations(State(), vendor, allocations) == CheckAllocations(State(), vendor, allocations[i..])
      {
        failed := CheckAllocation(State(), vendor, allocations[i]);
        if failed.Some? {
          return;
        }
        i := i + 1;
      }
      failed := None;
    }

    method ApprovePaymentVoucher(id: VoucherId, user: UserId) returns (result: Result<nat>)
      modifies this`vouchers
      ensures PayablesOutcome(State(), result) == VoucherApproved(old(State()), id, user)
    {
      if id >= |vouchers| {
        return Err(NotFound);
      }
      if vouchers[id].status != VoucherStatus.DRAFT {
        return Err(Conflict);
      }
      if vouchers[id].createdBy == user {
        return Err(BadRequest);
      }
      vouchers := vouchers[id := vouchers[id].(status := VoucherStatus.APPROVED)];
      return Ok(id);
    }

    /** The totals of a voucher, and its taxes grouped by authority. */
    method TotalsOf(allocations: seq<PaymentAllocation>)
      returns (totalGross: int, totalNetCash: int, taxCredits: seq<Deduction>)
      ensures totalGross == Sum(allocations, GrossOf) && totalNetCash == Sum(allocations, CashOf)
      ensures taxCredits == TaxCredits(allocations)
    {
      totalGross, totalNetCash, taxCredits := 0, 0, [];
      for i := 0 to |allocations|
        invariant totalGross == Sum(allocations[..i], GrossOf) && totalNetCash == Sum(allocations[..i], CashOf)
        invariant taxCredits == TaxCredits(allocations[..i])
      {
        var allocation := allocations[i];
        var gross, wht, vat := allocation.amount, AmountOf(allocation.wht), AmountOf(allocation.vat);
        assert allocations[..i + 1] == allocations[..i] + [allocation];
        SumAppend(allocations[..i], allocation, GrossOf);
        SumAppend(allocations[..i], allocation, CashOf);
        totalGross := totalGross + gross;
        totalNetCash := totalNetCash + (gross - wht - vat);
        taxCredits := Credited(taxCredits, allocation.wht);
        taxCredits := Credited(taxCredits, allocation.vat);
      }
      assert allocations[..|allocations|] == allocations;
    }

    method PostPaymentVoucher(master: Master, id: VoucherId, control: AccountId, cash: AccountId, user: UserId)
      returns (result: Result<nat>)
      modifies this, engine
      ensures PayablesOutcome(State(), result) == VoucherPosted(old(State()), master, id, control, cash, user)
      ensures batches == old(batches)
    {
      hide PostSystem, TaxCredits, TaxLines, Sum;
      if id >= |vouchers| {
        return Err(NotFound);
      }
      var voucher := vouchers[id];
      if voucher.status != VoucherStatus.APPROVED {
        return Err(Conflict);
      }
      var totalGross, totalNetCash, taxCredits := TotalsOf(voucher.allocations);
      var journalLines := [LineInput(control, totalGross as real, 0.0, VendorDims(voucher.vendor)),
                           LineInput(cash, 0.0, totalNetCash as real, VendorDims(voucher.vendor))]
                          + TaxLines(voucher.vendor, taxCredits);
      var posted := engine.PostSystemEntry(master, EntryInput(voucher.entity, voucher.paymentDate, journalLines), user);
      if posted.Err? {
        return Err(posted.error);
      }
      PayAllocated(voucher.allocations);
      vendorLedger := vendorLedger + [VendorEntry(voucher.entity, voucher.vendor, voucher.paymentDate, totalGross, 0)];
      vouchers := vouchers[id := voucher.(status := VoucherStatus.POSTED)];
      return Ok(id);
    }

    method PayAllocated(allocations: seq<PaymentAllocation>)
      modifies this`invoices
      ensures invoices == WithPayments(old(invoices), allocations)
    {
      for i := 0 to |allocations|
        invariant invoices == WithPayments(old(invoices), allocations[..i])
      {
        var allocation := allocations[i];
        assert allocations[..i + 1] == allocations[..i] + [allocation];
        if allocation.invoice < |invoices| {
          var invoice := invoices[allocation.invoice];
          invoices := invoices[allocation.invoice := invoice.(amountPaid := invoice.amountPaid + allocation.amount)];
        }
      }
      assert allocations[..|allocations|] == allocations;
    }

    method CreatePaymentBatch(master: Master, entity: EntityId, number: nat, user: UserId) returns (result: Result<nat>)
      modifies this`batches
      ensures PayablesOutcome(State(), result) == BatchCreated(old(State()), master, entity, number, user)
    {
      if entity !in master.activeEntities {
        return Err(NotFound);
      }
      if HasBatch(batches, entity, number) {
        return Err(Conflict);
      }
      batches := batches + [Batch(entity, number, BatchStatus.DRAFT, user)];
      return Ok(|batches| - 1);
    }

    method ApprovePaymentBatch(id: BatchId, user: UserId) returns (result: Result<nat>)
      modifies this`batches
      ensures PayablesOutcome(State(), result) == BatchApproved(old(State()), id, user)
    {
      if id >= |batches| {
        return Err(NotFound);
      }
      if batches[id].status != BatchStatus.DRAFT {
        return Err(Conflict);
      }
      if batches[id].createdBy == user {
        return Err(BadRequest);
      }
      batches := batches[id := batches[id].(status := BatchStatus.APPROVED)];
      return Ok(id);
    }

    method ProcessPaymentBatch(master: Master, id: BatchId, ids: seq<VoucherId>, control: AccountId, cash: AccountId,
                               user: UserId) returns (result: Result<nat>)
      requires BatchVouchers(State(), id, ids)
      modifies this, engine
      ensures PayablesOutcome(State(), result) == BatchProcessed(old(State()), master, id, ids, control, cash, user)
    {
      hide VoucherPosted, BatchVouchers;
      if id >= |batches| {
        return Err(NotFound);
      }
      if batches[id].status != BatchStatus.APPROVED {
        return Err(Conflict);
      }
      var count, i := 0, 0;
      while i < |ids|
        invariant 0 <= i <= |ids| && batches == old(batches)
        invariant VouchersPosted(old(State()), master, ids, control, cash, user, 0)
                  == VouchersPosted(State(), master, ids[i..], control, cash, user, count)
      {
        if ids[i] < |vouchers| && vouchers[ids[i]].status == VoucherStatus.APPROVED {
          var posted := PostPaymentVoucher(master, ids[i], control, cash, user);
          if posted.Err? {
            return Err(posted.error);
          }
          count := count + 1;
        }
        i := i + 1;
      }
      batches := batches[id := batches[id].(status := BatchStatus.PROCESSED)];
      return Ok(count);
    }

    method GetVendorStatement(s: Selection, entries: seq<VendorEntry>) returns (running: seq<int>)
      requires StatementQueried(vendorLedger, s, entries)
      ensures |running| == |StatementRows(vendorLedger, s)| == |entries|
      ensures forall k :: 0 <= k < |entries| ==> running[k] == Sum(entries[..k + 1], BalanceOf)
      ensures running != [] ==> running[|running| - 1] == Sum(StatementRows(vendorLedger, s), BalanceOf)
    {
      running := [];
      var runningBalance := 0;
      for i := 0 to |entries|
        invariant |running| == i && runningBalance == Sum(entries[..i], BalanceOf)
        invariant forall k :: 0 <= k < i ==> running[k] == Sum(entries[..k + 1], BalanceOf)
      {
        assert entries[..i + 1] == entries[..i] + [entries[i]];
        SumAppend(entries[..i], entries[i], BalanceOf);
        runningBalance := runningBalance + entries[i].credit - entries[i].debit;
        running := running + [runningBalance];
      }
      assert entries[..|entries|] == entries;
      assert |multiset(entries)| == |multiset(StatementRows(vendorLedger, s))|;
      SumPermuted(entries, StatementRows(vendorLedger, s), BalanceOf);
    }
  }
}
