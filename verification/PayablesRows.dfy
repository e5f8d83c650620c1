/** What each call on invoices, payment vouchers and batches accepts, and the rows and journal lines it leaves, column
    by column. */
module PayablesRows {
  import opened Money
  import opened Sums
  import opened Calendar
  import opened Ledger
  import opened TaxCodes
  import opened AccountsPayable
  import opened EngineRows
  import opened VoucherJournals

  // ---- Direct invoices ----

  /** In cents, not rounded. */
  function LineWorth(quantity: real, unitCost: int): real {
    quantity * unitCost as real
  }

  function Worth(lines: seq<InvoiceLine>): real {
    if lines == [] then 0.0 else LineWorth(lines[0].quantity, lines[0].unitCost) + Worth(lines[1..])
  }

  lemma {:induction false} WorthIsSum(lines: seq<InvoiceLine>)
    ensures SumReal(lines, LineValue) == Worth(lines)
  {
    if lines != [] {
      WorthIsSum(lines[1..]);
    }
  }

  /** createInvoice: for an active entity and vendor and a number new to both; the draft keeps quantities to four
      decimals and unit costs to cents. */
  lemma InvoiceRows(p: Payables, master: Master, activeVendors: set<VendorId>, input: InvoiceInput)
    ensures
      var o := InvoiceCreated(p, master, activeVendors, input);
      var known := exists i :: 0 <= i < |p.invoices| && p.invoices[i].entity == input.entity
                               && p.invoices[i].vendor == input.vendor && p.invoices[i].number == input.number;
      && o.result == (if input.entity !in master.activeEntities || input.vendor !in activeVendors then Err(NotFound)
                      else if known then Err(Conflict) else Ok(|p.invoices|))
      && (o.result.Err? ==> o.payables == p)
      && (o.result.Ok? ==>
            && o.payables == p.(invoices := p.invoices + [o.payables.invoices[|p.invoices|]])
            && var i := o.payables.invoices[|p.invoices|];
            && i.entity == input.entity && i.vendor == input.vendor && i.number == input.number && i.order == None
            && i.invoiceDate == input.invoiceDate && i.status == InvoiceStatus.DRAFT && i.amountPaid == 0
            && |i.lines| == |input.lines|
            && forall k :: 0 <= k < |i.lines| ==>
                 i.lines[k] == InvoiceLine(input.lines[k].account, FourDecimals(input.lines[k].quantity),
                                           Store(input.lines[k].unitCost), false))
  {
    hide Store;
  }

  /** What a numeric(18,4) column keeps. */
  function FourDecimals(x: real): real {
    Store(10000.0 * x) as real / 10000.0
  }

  function OfVendor(v: VendorId): Dimensions {
    Dimensions(None, None, None, None, None, None, None, None, Some(v), None)
  }

  /** Each line's account is debited with its worth and the control account credited with the worth of all, rounded one
      by one. */
  predicate InvoiceEntry(i: Invoice, control: AccountId, stored: seq<Line>) {
    && |stored| == |i.lines| + 1
    && (forall k :: 0 <= k < |i.lines| ==>
          stored[k] == Line(i.lines[k].account, Store(LineWorth(i.lines[k].quantity, i.lines[k].unitCost)), 0,
                            i.entity, OfVendor(i.vendor)))
    && stored[|i.lines|] == Line(control, 0, Store(Worth(i.lines)), i.entity, OfVendor(i.vendor))
  }

  lemma ExpenseStored(i: Invoice, line: InvoiceLine)
    ensures StoreLine(i.entity, ExpenseLine(i.vendor, line))
            == Line(line.account, Store(LineWorth(line.quantity, line.unitCost)), 0, i.entity, OfVendor(i.vendor))
  {
    ZeroStored();
    SameWorth(line);
    hide Store, LineValue, LineWorth;
  }

  lemma SameWorth(line: InvoiceLine)
    ensures LineValue(line) == LineWorth(line.quantity, line.unitCost)
  {
  }

  lemma InvoiceStored(i: Invoice, control: AccountId)
    ensures InvoiceEntry(i, control, StoreLines(i.entity, InvoiceJournal(i, control)))
  {
    hide SumReal, Worth, LineWorth, Store, ExpenseLine;
    WorthIsSum(i.lines);
    ZeroStored();
    forall k | 0 <= k < |i.lines|
      ensures StoreLines(i.entity, InvoiceJournal(i, control))[k]
              == StoreLine(i.entity, ExpenseLine(i.vendor, i.lines[k]))
      ensures StoreLine(i.entity, ExpenseLine(i.vendor, i.lines[k]))
              == Line(i.lines[k].account, Store(LineWorth(i.lines[k].quantity, i.lines[k].unitCost)), 0, i.entity,
                      OfVendor(i.vendor))
    {
      ExpenseStored(i, i.lines[k]);
    }
  }

  lemma ZeroStored()
    ensures Store(0.0) == 0
  {
  }

  /** postInvoice: a draft that names no order is posted on its own date, and credited to the vendor. */
  lemma PostInvoiceRows(p: Payables, master: Master, id: InvoiceId, control: AccountId, user: UserId)
    ensures
      var o := InvoicePosted(p, master, id, control, user);
      && (id >= |p.invoices| ==> o == PayablesOutcome(p, Err(NotFound)))
      && (id < |p.invoices| && p.invoices[id].order != None ==> o == PayablesOutcome(p, Err(BadRequest)))
      && (id < |p.invoices| && p.invoices[id].order == None && p.invoices[id].status != InvoiceStatus.DRAFT ==>
            o == PayablesOutcome(p, Err(Conflict)))
      && (id < |p.invoices| && p.invoices[id].order == None && p.invoices[id].status == InvoiceStatus.DRAFT ==>
            var i := p.invoices[id];
            var input := EntryInput(i.entity, i.invoiceDate, InvoiceJournal(i, control));
            var answer := PostSystem(p.ledger, master, input, user).result;
            o.result == if answer.Ok? then Ok(id) else answer)
      && (o.result.Err? ==> o.payables == p)
      && (o.result.Ok? ==>
            && id < |p.invoices|
            && var i, stored := p.invoices[id], LastEntry(o.payables.ledger);
            && InvoiceEntry(i, control, stored)
            && EntryAdded(p.ledger, o.payables.ledger, i.entity, i.invoiceDate, user, stored)
            && o.payables.invoices == p.invoices[id := i.(status := InvoiceStatus.POSTED)]
            && o.payables.vendorLedger
               == p.vendorLedger + [VendorEntry(i.entity, i.vendor, i.invoiceDate, 0, Store(Worth(i.lines)))]
            && o.payables.vouchers == p.vouchers && o.payables.batches == p.batches)
  {
    if id < |p.invoices| {
      hide PostSystem, StoreLines, InvoiceEntry, InvoiceJournal, Worth, SumReal, Store, MonthAdded, NumberTaken;
      var i := p.invoices[id];
      WorthIsSum(i.lines);
      InvoiceStored(i, control);
      SystemEntryAdds(p.ledger, master, EntryInput(i.entity, i.invoiceDate, InvoiceJournal(i, control)), user);
    }
  }

  function LastEntry(l: Ledger): seq<Line> {
    if l.entries == [] then [] else l.entries[|l.entries| - 1].lines
  }

  // ---- Creating and approving vouchers ----

  /** Why an allocation is refused: its invoice must be there, be the vendor's and be POSTED, and the amount may exceed
      what is left of the invoice by one cent. */
  function Objection(p: Payables, vendor: VendorId, a: AllocationInput): Option<Error> {
    if a.invoice >= |p.invoices| then Some(NotFound)
    else
      var i := p.invoices[a.invoice];
      if i.vendor != vendor then Some(BadRequest)
      else if i.status != InvoiceStatus.POSTED then Some(Conflict)
      else if a.amount + i.amountPaid as real > Worth(i.lines) + 1.0 then Some(BadRequest)
      else None
  }

  /** e is the objection to the first allocation that meets one, if any does. */
  predicate FirstObjection(p: Payables, vendor: VendorId, allocations: seq<AllocationInput>, e: Option<Error>) {
    if e == None then forall k :: 0 <= k < |allocations| ==> Objection(p, vendor, allocations[k]) == None
    else exists k :: 0 <= k < |allocations| && Objection(p, vendor, allocations[k]) == e
                     && forall j :: 0 <= j < k ==> Objection(p, vendor, allocations[j]) == None
  }

  lemma ObjectionIsCheck(p: Payables, vendor: VendorId, a: AllocationInput)
    ensures CheckAllocation(p, vendor, a) == Objection(p, vendor, a)
  {
    if a.invoice < |p.invoices| {
      WorthIsSum(p.invoices[a.invoice].lines);
    }
    hide SumReal, Worth;
  }

  lemma {:induction false} ChecksAreFirst(p: Payables, vendor: VendorId, allocations: seq<AllocationInput>)
    ensures FirstObjection(p, vendor, allocations, CheckAllocations(p, vendor, allocations))
  {
    hide Objection, CheckAllocation;
    if allocations != [] {
      ObjectionIsCheck(p, vendor, allocations[0]);
      if CheckAllocation(p, vendor, allocations[0]).None? {
        ChecksAreFirst(p, vendor, allocations[1..]);
        assert allocations == [allocations[0]] + allocations[1..];
        FirstObjectionMoves(p, vendor, allocations, CheckAllocations(p, vendor, allocations[1..]));
      }
    }
  }

  lemma FirstObjectionMoves(p: Payables, vendor: VendorId, allocations: seq<AllocationInput>, e: Option<Error>)
    requires allocations != [] && Objection(p, vendor, allocations[0]) == None
    requires FirstObjection(p, vendor, allocations[1..], e)
    ensures FirstObjection(p, vendor, allocations, e)
  {
    hide Objection;
    var rest := allocations[1..];
    assert forall k :: 0 <= k < |rest| ==> rest[k] == allocations[k + 1];
    if e != None {
      var k :| 0 <= k < |rest| && Objection(p, vendor, rest[k]) == e
               && forall j :: 0 <= j < k ==> Objection(p, vendor, rest[j]) == None;
      assert forall j :: 1 <= j < k + 1 ==> allocations[j] == rest[j - 1];
      assert allocations[k + 1] == rest[k];
    } else {
      assert forall k :: 1 <= k < |allocations| ==> allocations[k] == rest[k - 1];
    }
  }

  /** The rate as a fraction of the amount. */
  function Share(amount: real, rate: real): real {
    amount * rate
  }

  /** What a tax takes of an amount: the code's rate for its authority, or else a rate that is not zero for the
      authority given with it. */
  function TaxTaken(codes: CodeTable, amount: real, t: TaxInput): Option<Deduction> {
    if t.code != None then
      (if t.code.value in codes
       then Some(Deduction(codes[t.code.value].authority, Store(Share(amount, codes[t.code.value].rate)))) else None)
    else if t.rate != None && t.rate.value != 0.0 && t.authority != None then
      Some(Deduction(t.authority.value, Store(Share(amount, t.rate.value))))
    else None
  }

  lemma TaxIsDeducted(codes: CodeTable, amount: real, t: TaxInput)
    ensures Deducted(codes, amount, t) == TaxTaken(codes, amount, t)
  {
    if Resolve(codes, t).Some? {
      SameShare(amount, Resolve(codes, t).value.rate);
    }
    hide Store, Share, FractionOf;
  }

  lemma SameShare(amount: real, rate: real)
    ensures FractionOf(amount, rate) == Share(amount, rate)
  {
  }

  predicate AllocationsStored(codes: CodeTable, given: seq<AllocationInput>, stored: seq<PaymentAllocation>) {
    |stored| == |given| && forall k :: 0 <= k < |given| ==>
      stored[k] == PaymentAllocation(given[k].invoice, Store(given[k].amount),
                                     TaxTaken(codes, given[k].amount, given[k].wht),
                                     TaxTaken(codes, given[k].amount, given[k].vat))
  }

  lemma StoredAllocations(codes: CodeTable, given: seq<AllocationInput>)
    ensures AllocationsStored(codes, given, StoreAllocations(codes, given))
  {
    forall k | 0 <= k < |given|
      ensures StoreAllocations(codes, given)[k]
              == PaymentAllocation(given[k].invoice, Store(given[k].amount),
                                   TaxTaken(codes, given[k].amount, given[k].wht),
                                   TaxTaken(codes, given[k].amount, given[k].vat))
    {
      TaxIsDeducted(codes, given[k].amount, given[k].wht);
      TaxIsDeducted(codes, given[k].amount, given[k].vat);
    }
    hide TaxTaken, Deducted, Store;
  }

  predicate NumberUsed(vouchers: seq<Voucher>, entity: EntityId, number: nat) {
    exists i :: 0 <= i < |vouchers| && vouchers[i].entity == entity && vouchers[i].number == number
  }

  predicate CodesThere(codes: CodeTable, allocations: seq<AllocationInput>) {
    forall k :: 0 <= k < |allocations| ==>
      (allocations[k].wht.code == None || allocations[k].wht.code.value in codes)
      && (allocations[k].vat.code == None || allocations[k].vat.code.value in codes)
  }

  lemma CodesThereKnown(codes: CodeTable, allocations: seq<AllocationInput>)
    ensures CodesThere(codes, allocations) <==> CodesKnown(codes, allocations)
  {
    assert forall k :: 0 <= k < |allocations| ==> allocations[k] in allocations;
  }

  /** createPaymentVoucher: the first allocation with an objection decides; then the number must be new to the entity
      and each tax code known. e is the objection. */
  lemma VoucherRows(p: Payables, master: Master, codes: CodeTable, input: VoucherInput, user: UserId, e: Option<Error>)
    requires FirstObjection(p, input.vendor, input.allocations, e)
    ensures
      var o := VoucherCreated(p, master, codes, input, user);
      && o.result == (if input.entity !in master.activeEntities then Err(NotFound)
                      else if e != None then Err(e.value)
                      else if NumberUsed(p.vouchers, input.entity, input.number) then Err(Conflict)
                      else if !CodesThere(codes, input.allocations) then Err(NotFound) else Ok(|p.vouchers|))
      && (o.result.Err? ==> o.payables == p)
      && (o.result.Ok? ==>
            && o.payables == p.(vouchers := p.vouchers + [o.payables.vouchers[|p.vouchers|]])
            && var v := o.payables.vouchers[|p.vouchers|];
            && v.entity == input.entity && v.number == input.number && v.vendor == input.vendor
            && v.batch == input.batch && v.paymentDate == input.paymentDate && v.status == VoucherStatus.DRAFT
            && v.createdBy == user
            && AllocationsStored(codes, input.allocations, v.allocations))
  {
    hide FirstObjection, CheckAllocations, StoreAllocations, AllocationsStored, CodesKnown, CodesThere;
    ChecksAreFirst(p, input.vendor, input.allocations);
    OneFirst(p, input.vendor, input.allocations, e, CheckAllocations(p, input.vendor, input.allocations));
    StoredAllocations(codes, input.allocations);
    CodesThereKnown(codes, input.allocations);
  }

  lemma OneFirst(p: Payables, vendor: VendorId, allocations: seq<AllocationInput>, e: Option<Error>, f: Option<Error>)
    requires FirstObjection(p, vendor, allocations, e) && FirstObjection(p, vendor, allocations, f)
    ensures e == f
  {
    hide Objection;
    if e != None && f != None {
      var j :| 0 <= j < |allocations| && Objection(p, vendor, allocations[j]) == e
               && forall i :: 0 <= i < j ==> Objection(p, vendor, allocations[i]) == None;
      var k :| 0 <= k < |allocations| && Objection(p, vendor, allocations[k]) == f
               && forall i :: 0 <= i < k ==> Objection(p, vendor, allocations[i]) == None;
      assert j == k;
    }
  }

  /** approvePaymentVoucher: a draft, by somebody else than who made it. */
  lemma ApproveVoucherRows(p: Payables, id: VoucherId, user: UserId)
    ensures
      var o := VoucherApproved(p, id, user);
      && o.result == (if id >= |p.vouchers| then Err(NotFound)
                      else if p.vouchers[id].status != VoucherStatus.DRAFT then Err(Conflict)
                      else if p.vouchers[id].createdBy == user then Err(BadRequest) else Ok(id))
      && o.payables == if o.result.Err? then p
                       else p.(vouchers := p.vouchers[id := p.vouchers[id].(status := VoucherStatus.APPROVED)])
  {
  }

  // ---- Posting vouchers ----

  function Allocated(allocations: seq<PaymentAllocation>): int {
    if allocations == [] then 0 else allocations[0].amount + Allocated(allocations[1..])
  }

  /** What is withheld for an authority. */
  function Withheld(allocations: seq<PaymentAllocation>, authority: AccountId): int {
    if allocations == [] then 0
    else
      var a := allocations[0];
      (if a.wht != None && a.wht.value.authority == authority then a.wht.value.amount else 0)
      + (if a.vat != None && a.vat.value.authority == authority then a.vat.value.amount else 0)
      + Withheld(allocations[1..], authority)
  }

  /** What is left to pay in cash. */
  function LeftInCash(allocations: seq<PaymentAllocation>): int {
    if allocations == [] then 0
    else
      var a := allocations[0];
      a.amount - (if a.wht != None then a.wht.value.amount else 0) - (if a.vat != None then a.vat.value.amount else 0)
      + LeftInCash(allocations[1..])
  }

  predicate Withholds(allocations: seq<PaymentAllocation>, authority: AccountId) {
    exists k :: 0 <= k < |allocations|
                && ((allocations[k].wht != None && allocations[k].wht.value.authority == authority)
                    || (allocations[k].vat != None && allocations[k].vat.value.authority == authority))
  }

  lemma {:induction false} TotalsAre(allocations: seq<PaymentAllocation>, authority: AccountId)
    ensures Sum(allocations, GrossOf) == Allocated(allocations) && Sum(allocations, CashOf) == LeftInCash(allocations)
    ensures Sum(allocations, TaxFor(authority)) == Withheld(allocations, authority)
  {
    if allocations != [] {
      TotalsAre(allocations[1..], authority);
    }
  }

  /** Of lines that name each authority once, the sum for an authority is its line. */
  lemma {:induction false} CreditOfOne(credits: seq<Deduction>, k: nat)
    requires k < |credits| && OnePerAuthority(credits)
    ensures Sum(credits, CreditFor(credits[k].authority)) == credits[k].amount
  {
    var x := credits[k].authority;
    if k == 0 {
      forall d | d in credits[1..]
        ensures CreditFor(x)(d) == 0
      {
        var i :| 0 <= i < |credits[1..]| && credits[1..][i] == d;
        assert credits[i + 1] == d;
      }
      SumZero(credits[1..], CreditFor(x));
    } else {
      assert credits[1..][k - 1] == credits[k];
      assert forall j, i :: 0 <= j < i < |credits| - 1 ==> credits[1..][j].authority != credits[1..][i].authority;
      CreditOfOne(credits[1..], k - 1);
    }
  }

  /** The tax lines of a voucher: one for each authority that something is withheld for, with all of that. */
  predicate TaxEntry(v: Voucher, lines: seq<Line>) {
    && (forall j, k :: 0 <= j < k < |lines| ==> lines[j].account != lines[k].account)
    && (forall k :: 0 <= k < |lines| ==>
          && Withholds(v.allocations, lines[k].account)
          && var due := Withheld(v.allocations, lines[k].account);
          && lines[k] == Line(lines[k].account, 0, due, v.entity, OfVendor(v.vendor)))
    && (forall k :: 0 <= k < |v.allocations| ==>
          && (v.allocations[k].wht != None ==> HasLineFor(lines, v.allocations[k].wht.value.authority))
          && (v.allocations[k].vat != None ==> HasLineFor(lines, v.allocations[k].vat.value.authority)))
  }

  predicate HasLineFor(lines: seq<Line>, account: AccountId) {
    exists k :: 0 <= k < |lines| && lines[k].account == account
  }

  lemma TaxLineStored(v: Voucher, k: nat)
    requires k < |TaxCredits(v.allocations)|
    ensures
      var d := TaxCredits(v.allocations)[k];
      && d.amount == Withheld(v.allocations, d.authority) && Withholds(v.allocations, d.authority)
      && StoreLine(v.entity, TaxLine(v.vendor, d)) == Line(d.authority, 0, d.amount, v.entity, OfVendor(v.vendor))
  {
    hide TaxCredits, Sum, Withheld;
    var credits := TaxCredits(v.allocations);
    var d := credits[k];
    CreditsGrouped(v.allocations, d.authority);
    CreditOfOne(credits, k);
    CreditsMatchDeductions(v.allocations, d.authority);
    TotalsAre(v.allocations, d.authority);
    StoreWhole(d.amount);
    ZeroStored();
    assert Listed(credits, d.authority);
  }

  lemma AuthorityListed(v: Voucher, authority: AccountId)
    requires Withholds(v.allocations, authority)
    ensures exists k :: 0 <= k < |TaxCredits(v.allocations)| && TaxCredits(v.allocations)[k].authority == authority
  {
    hide TaxCredits;
    CreditsGrouped(v.allocations, authority);
  }

  lemma TaxEntryStored(v: Voucher)
    ensures TaxEntry(v, StoreLines(v.entity, TaxLines(v.vendor, TaxCredits(v.allocations))))
  {
    hide TaxCredits, Withheld, Withholds, StoreLine, TaxLine;
    var credits := TaxCredits(v.allocations);
    var lines := StoreLines(v.entity, TaxLines(v.vendor, credits));
    CreditsGrouped(v.allocations, 0);
    forall k | 0 <= k < |credits|
      ensures lines[k] == Line(credits[k].authority, 0, Withheld(v.allocations, credits[k].authority), v.entity,
                               OfVendor(v.vendor))
      ensures Withholds(v.allocations, credits[k].authority)
    {
      TaxLineStored(v, k);
    }
    forall authority | Withholds(v.allocations, authority)
      ensures HasLineFor(lines, authority)
    {
      AuthorityListed(v, authority);
      var k :| 0 <= k < |credits| && credits[k].authority == authority;
      assert lines[k].account == authority;
    }
    forall k | 0 <= k < |v.allocations|
      ensures v.allocations[k].wht != None ==> Withholds(v.allocations, v.allocations[k].wht.value.authority)
      ensures v.allocations[k].vat != None ==> Withholds(v.allocations, v.allocations[k].vat.value.authority)
    {
      WithholdsAt(v.allocations, k);
    }
  }

  lemma WithholdsAt(allocations: seq<PaymentAllocation>, k: nat)
    requires k < |allocations|
    ensures allocations[k].wht != None ==> Withholds(allocations, allocations[k].wht.value.authority)
    ensures allocations[k].vat != None ==> Withholds(allocations, allocations[k].vat.value.authority)
  {
  }

  /** The control account is debited with all that is allocated; cash is credited with what is left of it, and each
      authority with what is withheld for it. */
  predicate VoucherEntry(v: Voucher, control: AccountId, cash: AccountId, stored: seq<Line>) {
    && |stored| >= 2
    && stored[0] == Line(control, Allocated(v.allocations), 0, v.entity, OfVendor(v.vendor))
    && stored[1] == Line(cash, 0, LeftInCash(v.allocations), v.entity, OfVendor(v.vendor))
    && TaxEntry(v, stored[2..])
  }

  lemma VoucherStored(v: Voucher, control: AccountId, cash: AccountId)
    ensures VoucherEntry(v, control, cash, StoreLines(v.entity, VoucherJournal(v, control, cash)))
  {
    hide TaxCredits, TaxEntry, Sum, Store, Allocated, LeftInCash;
    TotalsAre(v.allocations, 0);
    TaxEntryStored(v);
    StoreWhole(Allocated(v.allocations));
    StoreWhole(LeftInCash(v.allocations));
    ZeroStored();
    assert StoreLines(v.entity, VoucherJournal(v, control, cash))[2..]
           == StoreLines(v.entity, TaxLines(v.vendor, TaxCredits(v.allocations)));
  }

  function PaidOn(allocations: seq<PaymentAllocation>, invoice: InvoiceId): int {
    if allocations == [] then 0
    else (if allocations[0].invoice == invoice then allocations[0].amount else 0) + PaidOn(allocations[1..], invoice)
  }

  lemma {:induction false} PaidOnLast(allocations: seq<PaymentAllocation>, a: PaymentAllocation, invoice: InvoiceId)
    ensures PaidOn(allocations + [a], invoice)
            == PaidOn(allocations, invoice) + if a.invoice == invoice then a.amount else 0
  {
    if allocations == [] {
      assert allocations + [a] == [a];
    } else {
      assert (allocations + [a])[1..] == allocations[1..] + [a];
      PaidOnLast(allocations[1..], a, invoice);
    }
  }

  lemma {:induction false} PaymentsAddUp(invoices: seq<Invoice>, allocations: seq<PaymentAllocation>, id: InvoiceId)
    requires id < |invoices|
    ensures WithPayments(invoices, allocations)[id]
            == invoices[id].(amountPaid := invoices[id].amountPaid + PaidOn(allocations, id))
  {
    if allocations != [] {
      var n := |allocations| - 1;
      PaymentsAddUp(invoices, allocations[..n], id);
      PaidOnLast(allocations[..n], allocations[n], id);
      assert allocations == allocations[..n] + [allocations[n]];
    }
  }

  /** Each invoice has been paid what is allocated to it, and has not changed otherwise. */
  predicate Paid(p: Payables, after: Payables, v: Voucher) {
    |after.invoices| == |p.invoices| && forall i :: 0 <= i < |p.invoices| ==>
      after.invoices[i] == p.invoices[i].(amountPaid := p.invoices[i].amountPaid + PaidOn(v.allocations, i))
  }

  lemma PaidAll(p: Payables, after: Payables, v: Voucher)
    requires after.invoices == WithPayments(p.invoices, v.allocations)
    ensures Paid(p, after, v)
  {
    hide WithPayments, PaidOn;
    forall i | 0 <= i < |p.invoices|
      ensures after.invoices[i] == p.invoices[i].(amountPaid := p.invoices[i].amountPaid + PaidOn(v.allocations, i))
    {
      PaymentsAddUp(p.invoices, v.allocations, i);
    }
  }

  /** postPaymentVoucher: an approved voucher is posted on its payment date, its invoices are paid, and the vendor is
      debited with all that is allocated. */
  lemma PostVoucherRows(p: Payables, master: Master, id: VoucherId, control: AccountId, cash: AccountId, user: UserId)
    ensures
      var o := VoucherPosted(p, master, id, control, cash, user);
      && (id >= |p.vouchers| ==> o == PayablesOutcome(p, Err(NotFound)))
      && (id < |p.vouchers| && p.vouchers[id].status != VoucherStatus.APPROVED ==>
            o == PayablesOutcome(p, Err(Conflict)))
      && (id < |p.vouchers| && p.vouchers[id].status == VoucherStatus.APPROVED ==>
            var v := p.vouchers[id];
            var input := EntryInput(v.entity, v.paymentDate, VoucherJournal(v, control, cash));
            var answer := PostSystem(p.ledger, master, input, user).result;
            o.result == if answer.Ok? then Ok(id) else answer)
      && (o.result.Err? ==> o.payables == p)
      && (o.result.Ok? ==>
            && id < |p.vouchers|
            && var v, stored := p.vouchers[id], LastEntry(o.payables.ledger);
            && VoucherEntry(v, control, cash, stored)
            && EntryAdded(p.ledger, o.payables.ledger, v.entity, v.paymentDate, user, stored)
            && Paid(p, o.payables, v)
            && o.payables.vouchers == p.vouchers[id := v.(status := VoucherStatus.POSTED)]
            && o.payables.vendorLedger
               == p.vendorLedger + [VendorEntry(v.entity, v.vendor, v.paymentDate, Allocated(v.allocations), 0)]
            && o.payables.batches == p.batches)
  {
    if id < |p.vouchers| {
      hide PostSystem, StoreLines, VoucherEntry, VoucherJournal, Allocated, Sum, Paid, WithPayments, MonthAdded,
           NumberTaken;
      var v, o := p.vouchers[id], VoucherPosted(p, master, id, control, cash, user);
      TotalsAre(v.allocations, 0);
      VoucherStored(v, control, cash);
      SystemEntryAdds(p.ledger, master, EntryInput(v.entity, v.paymentDate, VoucherJournal(v, control, cash)), user);
      if o.result.Ok? {
        PaidAll(p, o.payables, v);
      }
    }
  }

  // ---- Batches ----

  /** createPaymentBatch and approvePaymentBatch. */
  lemma BatchRows(p: Payables, master: Master, entity: EntityId, number: nat, id: BatchId, user: UserId)
    ensures
      var o := BatchCreated(p, master, entity, number, user);
      var known := exists i :: 0 <= i < |p.batches| && p.batches[i].entity == entity && p.batches[i].number == number;
      && o.result == (if entity !in master.activeEntities then Err(NotFound) else if known then Err(Conflict)
                      else Ok(|p.batches|))
      && o.payables == if o.result.Err? then p
                       else p.(batches := p.batches + [Batch(entity, number, BatchStatus.DRAFT, user)])
    ensures
      var o := BatchApproved(p, id, user);
      && o.result == (if id >= |p.batches| then Err(NotFound)
                      else if p.batches[id].status != BatchStatus.DRAFT then Err(Conflict)
                      else if p.batches[id].createdBy == user then Err(BadRequest) else Ok(id))
      && o.payables == if o.result.Err? then p
                       else p.(batches := p.batches[id := p.batches[id].(status := BatchStatus.APPROVED)])
  {
  }

  function ApprovedAmong(vouchers: seq<Voucher>, ids: seq<VoucherId>): nat {
    if ids == [] then 0
    else (if ids[0] < |vouchers| && vouchers[ids[0]].status == VoucherStatus.APPROVED then 1 else 0)
         + ApprovedAmong(vouchers, ids[1..])
  }

  lemma {:induction false} ApprovedElsewhere(vouchers: seq<Voucher>, after: seq<Voucher>, ids: seq<VoucherId>)
    requires |after| == |vouchers| && forall v :: v in ids && v < |vouchers| ==> after[v] == vouchers[v]
    ensures ApprovedAmong(after, ids) == ApprovedAmong(vouchers, ids)
  {
    if ids != [] {
      assert forall v :: v in ids[1..] ==> v in ids;
      ApprovedElsewhere(vouchers, after, ids[1..]);
    }
  }

  /** The approved vouchers among ids become POSTED and no other row changes. */
  predicate PostedAmong(vouchers: seq<Voucher>, after: seq<Voucher>, ids: seq<VoucherId>) {
    |after| == |vouchers| && forall v :: 0 <= v < |vouchers| ==>
      after[v] == if v in ids && vouchers[v].status == VoucherStatus.APPROVED
                  then vouchers[v].(status := VoucherStatus.POSTED) else vouchers[v]
  }

  lemma {:induction false} VouchersRows(p: Payables, master: Master, ids: seq<VoucherId>, control: AccountId,
                                        cash: AccountId, user: UserId, count: nat)
    requires forall j, k :: 0 <= j < k < |ids| ==> ids[j] != ids[k]
    ensures
      var o := VouchersPosted(p, master, ids, control, cash, user, count);
      && o.payables.batches == p.batches
      && (o.result.Ok? ==>
            o.result.value == count + ApprovedAmong(p.vouchers, ids)
            && PostedAmong(p.vouchers, o.payables.vouchers, ids))
    decreases |ids|
  {
    hide PostSystem, VoucherJournal, WithPayments, Sum;
    if ids != [] {
      assert ids == [ids[0]] + ids[1..] && ids[0] !in ids[1..];
      if ids[0] < |p.vouchers| && p.vouchers[ids[0]].status == VoucherStatus.APPROVED {
        var posted := VoucherPosted(p, master, ids[0], control, cash, user);
        if posted.result.Ok? {
          VouchersRows(posted.payables, master, ids[1..], control, cash, user, count + 1);
          ApprovedElsewhere(p.vouchers, posted.payables.vouchers, ids[1..]);
        }
      } else {
        VouchersRows(p, master, ids[1..], control, cash, user, count);
      }
    }
  }

  lemma VoucherRefused(p: Payables, master: Master, id: VoucherId, control: AccountId, cash: AccountId, user: UserId)
    ensures VoucherPosted(p, master, id, control, cash, user).result.Err? ==>
              VoucherPosted(p, master, id, control, cash, user).payables == p
  {
    hide VoucherEntry, Paid, EntryAdded;
    PostVoucherRows(p, master, id, control, cash, user);
  }

  /** A run that fails has posted the approved vouchers before the one that is refused, and stops there with its
      error. */
  lemma {:induction false} VouchersStop(p: Payables, master: Master, ids: seq<VoucherId>, control: AccountId,
                                        cash: AccountId, user: UserId, count: nat)
    returns (k: nat)
    requires VouchersPosted(p, master, ids, control, cash, user, count).result.Err?
    ensures k < |ids|
    ensures
      var o := VouchersPosted(p, master, ids, control, cash, user, count);
      var before := VouchersPosted(p, master, ids[..k], control, cash, user, count);
      && before.result.Ok? && o.payables == before.payables
      && ids[k] < |before.payables.vouchers| && before.payables.vouchers[ids[k]].status == VoucherStatus.APPROVED
      && o.result == VoucherPosted(before.payables, master, ids[k], control, cash, user).result
    decreases |ids|
  {
    hide VoucherPosted;
    VoucherRefused(p, master, ids[0], control, cash, user);
    var approved := ids[0] < |p.vouchers| && p.vouchers[ids[0]].status == VoucherStatus.APPROVED;
    var posted := VoucherPosted(p, master, ids[0], control, cash, user);
    k := 0;
    if approved && posted.result.Err? {
      assert ids[..0] == [];
    } else {
      var next, counted := if approved then posted.payables else p, if approved then count + 1 else count;
      k := VouchersStop(next, master, ids[1..], control, cash, user, counted);
      assert ids[..k + 1][1..] == ids[1..][..k];
      k := k + 1;
    }
  }

  /** processPaymentBatch: of an approved batch, posts the vouchers that are approved, and counts them; when one is
      refused, the batch stays as it is. */
  lemma ProcessRows(p: Payables, master: Master, id: BatchId, ids: seq<VoucherId>, control: AccountId, cash: AccountId,
                    user: UserId)
    requires forall j, k :: 0 <= j < k < |ids| ==> ids[j] != ids[k]
    ensures
      var o := BatchProcessed(p, master, id, ids, control, cash, user);
      && (id >= |p.batches| ==> o == PayablesOutcome(p, Err(NotFound)))
      && (id < |p.batches| && p.batches[id].status != BatchStatus.APPROVED ==> o == PayablesOutcome(p, Err(Conflict)))
      && (id < |p.batches| && p.batches[id].status == BatchStatus.APPROVED && o.result.Err? ==>
            o == VouchersPosted(p, master, ids, control, cash, user, 0) && o.payables.batches == p.batches)
      && (o.result.Ok? ==>
            && id < |p.batches|
            && o.payables.batches == p.batches[id := p.batches[id].(status := BatchStatus.PROCESSED)]
            && o.result.value == ApprovedAmong(p.vouchers, ids)
            && PostedAmong(p.vouchers, o.payables.vouchers, ids))
  {
    hide VouchersPosted, ApprovedAmong, PostedAmong;
    VouchersRows(p, master, ids, control, cash, user, 0);
  }

  // ---- The vendor statement ----

  /** Which rows a statement takes, and what each adds to the balance. */
  lemma StatementRow(rows: seq<VendorEntry>, e: VendorEntry, s: Selection)
    ensures StatementRows([], s) == []
    ensures
      var taken := e.entity == s.entity && e.vendor == s.vendor
                   && (s.from == None || Time(s.from.value) <= Time(e.date))
                   && (s.to == None || Time(e.date) <= Time(s.to.value));
      StatementRows(rows + [e], s) == StatementRows(rows, s) + if taken then [e] else []
    ensures Sum([], BalanceOf) == 0 && Sum(rows + [e], BalanceOf) == Sum(rows, BalanceOf) + e.credit - e.debit
  {
    hide Time;
    SumAppend(rows, e, BalanceOf);
    LastOfStatement(rows, e, s);
  }

  lemma {:induction false} LastOfStatement(rows: seq<VendorEntry>, e: VendorEntry, s: Selection)
    ensures StatementRows(rows + [e], s) == StatementRows(rows, s) + if InStatement(e, s) then [e] else []
  {
    hide InStatement;
    if rows == [] {
      assert rows + [e] == [e];
    } else {
      assert (rows + [e])[1..] == rows[1..] + [e];
      LastOfStatement(rows[1..], e, s);
    }
  }
}
