/** How procurement bills and posts invoices: the part of it that meets the payables and the control account. */
module Procurement {
  import opened Money
  import opened Sums
  import opened Calendar
  import opened Ledger
  import opened AccountsPayable

  type MatchId = nat

  datatype PurchaseOrder = PurchaseOrder(entity: EntityId, vendor: VendorId)

  /** What was received against an order, and the account it was accrued to. */
  datatype Receipt = Receipt(order: OrderId, clearing: AccountId)

  /** creditedTo: the account its journal entry credited, once the match is completed. */
  datatype ThreeWayMatch = ThreeWayMatch(order: OrderId, invoice: InvoiceId, clearing: AccountId,
                                         creditedTo: Option<AccountId>)

  datatype Purchasing = Purchasing(payables: Payables, orders: seq<PurchaseOrder>, matches: seq<ThreeWayMatch>)

  datatype PurchasingOutcome = PurchasingOutcome(purchasing: Purchasing, result: Result<nat>)

  // ---- Invoices ----

  /** ordered: the lines that bill a line of the purchase order. */
  datatype BillInput = BillInput(invoice: InvoiceInput, order: Option<OrderId>, ordered: set<nat>)

  function BilledLines(b: BillInput): seq<InvoiceLine> {
    seq(|b.invoice.lines|,
        i requires 0 <= i < |b.invoice.lines| => StoreInvoiceLine(b.invoice.lines[i], i in b.ordered))
  }

  function Billed(q: Purchasing, master: Master, activeVendors: set<VendorId>, b: BillInput): PurchasingOutcome {
    var i := b.invoice;
    if i.entity !in master.activeEntities then PurchasingOutcome(q, Err(NotFound))
    else if i.vendor !in activeVendors then PurchasingOutcome(q, Err(NotFound))
    else if b.order.Some? && b.order.value >= |q.orders| then PurchasingOutcome(q, Err(NotFound))
    else if b.order.Some? && q.orders[b.order.value] != PurchaseOrder(i.entity, i.vendor) then
      PurchasingOutcome(q, Err(BadRequest))
    else if HasInvoice(q.payables.invoices, i.entity, i.vendor, i.number) then PurchasingOutcome(q, Err(Conflict))
    else
      var invoice := Invoice(i.entity, i.vendor, i.number, b.order, i.invoiceDate, InvoiceStatus.PENDING_MATCH,
                             BilledLines(b), 0);
      PurchasingOutcome(q.(payables := q.payables.(invoices := q.payables.invoices + [invoice])),
                        Ok(|q.payables.invoices|))
  }

  // ---- Three-way matches ----

  function MatchCreated(q: Purchasing, order: OrderId, receipt: Option<Receipt>,
                        invoice: InvoiceId): PurchasingOutcome {
    if order >= |q.orders| then PurchasingOutcome(q, Err(NotFound))
    else if receipt.None? then PurchasingOutcome(q, Err(NotFound))
    else if invoice >= |q.payables.invoices| then PurchasingOutcome(q, Err(NotFound))
    else if receipt.value.order != order then PurchasingOutcome(q, Err(BadRequest))
    else if q.payables.invoices[invoice].order.Some? && q.payables.invoices[invoice].order.value != order then
      PurchasingOutcome(q, Err(BadRequest))
    else
      var m := ThreeWayMatch(order, invoice, receipt.value.clearing, None);
      PurchasingOutcome(q.(matches := q.matches + [m]), Ok(|q.matches|))
  }

  /** Lines that bill an order line clear what was accrued for it. */
  function Cleared(line: InvoiceLine, clearing: AccountId): InvoiceLine {
    if line.ordered then line.(account := clearing) else line
  }

  function ClearedLines(lines: seq<InvoiceLine>, clearing: AccountId): (cleared: seq<InvoiceLine>)
    ensures |cleared| == |lines|
  {
    seq(|lines|, i requires 0 <= i < |lines| => Cleared(lines[i], clearing))
  }

  /** The invoice as completing the match posts it: for the order's entity and vendor. */
  function AsMatched(i: Invoice, order: PurchaseOrder, clearing: AccountId): Invoice {
    i.(entity := order.entity, vendor := order.vendor, lines := ClearedLines(i.lines, clearing))
  }

  /** Foreign keys keep the order and the invoice of a match in range. */
  function MatchCompleted(q: Purchasing, master: Master, id: MatchId, control: AccountId, user: UserId,
                          now: Date): PurchasingOutcome {
    if id >= |q.matches| then PurchasingOutcome(q, Err(NotFound))
    else
      var m := q.matches[id];
      if m.order >= |q.orders| || m.invoice >= |q.payables.invoices| then PurchasingOutcome(q, Err(NotFound))
      else
        var invoice, order := q.payables.invoices[m.invoice], q.orders[m.order];
        if invoice.status == InvoiceStatus.POSTED then PurchasingOutcome(q, Err(Conflict))
        else
          var journal := InvoiceJournal(AsMatched(invoice, order, m.clearing), control);
          var posted := PostSystem(q.payables.ledger, master, EntryInput(order.entity, now, journal), user);
          match posted.result
          case Err(e) => PurchasingOutcome(q.(payables := q.payables.(ledger := posted.ledger)), Err(e))
          case Ok(_) =>
            var invoices := q.payables.invoices[m.invoice := invoice.(status := InvoiceStatus.POSTED)];
            PurchasingOutcome(Purchasing(q.payables.(ledger := posted.ledger, invoices := invoices), q.orders,
                                         q.matches[id := m.(creditedTo := Some(control))]), Ok(id))
  }

  // ---- The service ----

  class ProcurementService {
    const payables: PayablesService
    var orders: seq<PurchaseOrder>
    var matches: seq<ThreeWayMatch>

    constructor (payables: PayablesService)
      ensures this.payables == payables && orders == [] && matches == []
    {
      this.payables := payables;
      orders, matches := [], [];
    }

    function State(): Purchasing
      reads this, payables, payables.engine
    {
      Purchasing(payables.State(), orders, matches)
    }

    method CreateVendorInvoice(master: Master, activeVendors: set<VendorId>, b: BillInput) returns (result: Result<nat>)
      modifies payables`invoices
      ensures PurchasingOutcome(State(), result) == Billed(old(State()), master, activeVendors, b)
    {
      if b.invoice.entity !in master.activeEntities {
        return Err(NotFound);
      }
      if b.invoice.vendor !in activeVendors {
        return Err(NotFound);
      }
      if b.order.Some? {
        if b.order.value >= |orders| {
          return Err(NotFound);
        }
        var order := orders[b.order.value];
        if order.entity != b.invoice.entity || order.vendor != b.invoice.vendor {
          return Err(BadRequest);
        }
      }
      if HasInvoice(payables.invoices, b.invoice.entity, b.invoice.vendor, b.invoice.number) {
        return Err(Conflict);
      }
      var invoice := Invoice(b.invoice.entity, b.invoice.vendor, b.invoice.number, b.order, b.invoice.invoiceDate,
                             InvoiceStatus.PENDING_MATCH, BilledLines(b), 0);
      payables.invoices := payables.invoices + [invoice];
      return Ok(|payables.invoices| - 1);
    }

    method CreateThreeWayMatch(order: OrderId, receipt: Option<Receipt>, invoice: InvoiceId)
      returns (result: Result<nat>)
      modifies this
      ensures PurchasingOutcome(State(), result) == MatchCreated(old(State()), order, receipt, invoice)
    {
      if order >= |orders| || receipt.None? || invoice >= |payables.invoices| {
        return Err(NotFound);
      }
      if receipt.value.order != order {
        return Err(BadRequest);
      }
      var billed := payables.invoices[invoice].order;
      if billed.Some? && billed.value != order {
        return Err(BadRequest);
      }
      matches := matches + [ThreeWayMatch(order, invoice, receipt.value.clearing, None)];
      return Ok(|matches| - 1);
    }

    /** The debit lines of a completed match, and their running total. */
    method ClearingJournal(invoice: Invoice, order: PurchaseOrder, clearing: AccountId)
      returns (journalLines: seq<LineInput>, invoiceTotal: real)
      ensures journalLines == ExpenseLines(order.vendor, ClearedLines(invoice.lines, clearing))
      ensures invoiceTotal == Total(AsMatched(invoice, order, clearing))
    {
      var lines := ClearedLines(invoice.lines, clearing);
      journalLines, invoiceTotal := [], 0.0;
      for i := 0 to |invoice.lines|
        invariant journalLines == ExpenseLines(order.vendor, lines[..i])
        invariant invoiceTotal == SumReal(lines[..i], LineValue)
      {
        var line := invoice.lines[i];
        var value := line.quantity * line.unitCost as real;
        var account := if line.ordered then clearing else line.account;
        assert value == LineValue(lines[i]);
        assert lines[..i + 1] == lines[..i] + [lines[i]];
        SumRealAppend(lines[..i], lines[i], LineValue);
        invoiceTotal := invoiceTotal + value;
        journalLines := journalLines + [LineInput(account, value, 0.0, VendorDims(order.vendor))];
      }
      assert lines[..|lines|] == lines;
    }

    method CompleteThreeWayMatch(master: Master, id: MatchId, control: AccountId, user: UserId, now: Date)
      returns (result: Result<nat>)
      modifies this, payables`invoices, payables.engine
      ensures PurchasingOutcome(State(), result) == MatchCompleted(old(State()), master, id, control, user, now)
    {
      hide PostSystem, Total;
      if id >= |matches| {
        return Err(NotFound);
      }
      var m := matches[id];
      if m.order >= |orders| || m.invoice >= |payables.invoices| {
        return Err(NotFound);
      }
      var invoice, order := payables.invoices[m.invoice], orders[m.order];
      if invoice.status == InvoiceStatus.POSTED {
        return Err(Conflict);
      }
      var journalLines, invoiceTotal := ClearingJournal(invoice, order, m.clearing);
      journalLines := journalLines + [LineInput(control, 0.0, invoiceTotal, VendorDims(order.vendor))];
      var posted := payables.engine.PostSystemEntry(master, EntryInput(order.entity, now, journalLines), user);
      if posted.Err? {
        return Err(posted.error);
      }
      payables.invoices := payables.invoices[m.invoice := invoice.(status := InvoiceStatus.POSTED)];
      matches := matches[id := m.(creditedTo := Some(control))];
      return Ok(id);
    }
  }
}
