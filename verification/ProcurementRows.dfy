/** What each call on ordered invoices and three-way matches accepts, and the rows and journal lines it leaves, column
    by column. */
module ProcurementRows {
  import opened Money
  import opened Calendar
  import opened Ledger
  import opened AccountsPayable
  import opened EngineRows
  import opened PayablesRows
  import opened Procurement

  /** createVendorInvoice: as a direct invoice, but pending its match; an order that it names must be there and be of
      the same entity and vendor. */
  lemma BillRows(q: Purchasing, master: Master, activeVendors: set<VendorId>, b: BillInput)
    ensures
      var o, i := Billed(q, master, activeVendors, b), b.invoice;
      var bills := q.payables.invoices;
      var known := exists k :: 0 <= k < |bills| && bills[k].entity == i.entity && bills[k].vendor == i.vendor
                               && bills[k].number == i.number;
      && o.result == (if i.entity !in master.activeEntities || i.vendor !in activeVendors then Err(NotFound)
                      else if b.order != None && b.order.value >= |q.orders| then Err(NotFound)
                      else if b.order != None && (q.orders[b.order.value].entity != i.entity
                                                  || q.orders[b.order.value].vendor != i.vendor) then Err(BadRequest)
                      else if known then Err(Conflict) else Ok(|q.payables.invoices|))
      && o.purchasing.orders == q.orders && o.purchasing.matches == q.matches
      && (o.result.Err? ==> o.purchasing == q)
      && (o.result.Ok? ==>
            && var n, after := |q.payables.invoices|, o.purchasing.payables;
            && after == q.payables.(invoices := q.payables.invoices + [after.invoices[n]])
            && var bill := after.invoices[n];
            && bill.entity == i.entity && bill.vendor == i.vendor && bill.number == i.number && bill.order == b.order
            && bill.invoiceDate == i.invoiceDate && bill.status == InvoiceStatus.PENDING_MATCH && bill.amountPaid == 0
            && |bill.lines| == |i.lines|
            && forall k :: 0 <= k < |i.lines| ==>
                 bill.lines[k] == InvoiceLine(i.lines[k].account, FourDecimals(i.lines[k].quantity),
                                              Store(i.lines[k].unitCost), k in b.ordered))
  {
    hide Store;
  }

  /** createThreeWayMatch: the order, the receipt and the invoice must be there, and receipt and invoice must be for the
      order. */
  lemma MatchRows(q: Purchasing, order: OrderId, receipt: Option<Receipt>, invoice: InvoiceId)
    ensures
      var o := MatchCreated(q, order, receipt, invoice);
      var there := order < |q.orders| && receipt != None && invoice < |q.payables.invoices|;
      && o.result == (if !there then Err(NotFound)
                      else if receipt.value.order != order then Err(BadRequest)
                      else if q.payables.invoices[invoice].order !in {None, Some(order)} then Err(BadRequest)
                      else Ok(|q.matches|))
      && o.purchasing == if o.result.Err? then q
                         else q.(matches := q.matches + [ThreeWayMatch(order, invoice, receipt.value.clearing, None)])
  {
  }

  /** As InvoiceEntry, for the order's entity and vendor, and with the clearing account for lines that bill an order
      line. */
  predicate MatchEntry(lines: seq<InvoiceLine>, order: PurchaseOrder, clearing: AccountId, control: AccountId,
                       stored: seq<Line>) {
    && |stored| == |lines| + 1
    && (forall k :: 0 <= k < |lines| ==>
          stored[k] == Line(if lines[k].ordered then clearing else lines[k].account,
                            Store(LineWorth(lines[k].quantity, lines[k].unitCost)), 0, order.entity,
                            OfVendor(order.vendor)))
    && stored[|lines|] == Line(control, 0, Store(Worth(lines)), order.entity, OfVendor(order.vendor))
  }

  lemma {:induction false} ClearingWorth(lines: seq<InvoiceLine>, cleared: seq<InvoiceLine>)
    requires |cleared| == |lines| && forall k :: 0 <= k < |lines| ==>
               cleared[k].quantity == lines[k].quantity && cleared[k].unitCost == lines[k].unitCost
    ensures Worth(cleared) == Worth(lines)
  {
    hide LineWorth;
    if lines != [] {
      ClearingWorth(lines[1..], cleared[1..]);
    }
  }

  lemma MatchStored(i: Invoice, order: PurchaseOrder, clearing: AccountId, control: AccountId)
    ensures MatchEntry(i.lines, order, clearing, control,
                       StoreLines(order.entity, InvoiceJournal(AsMatched(i, order, clearing), control)))
  {
    hide InvoiceJournal, Store, Worth, LineWorth, StoreLines;
    InvoiceStored(AsMatched(i, order, clearing), control);
    ClearingWorth(i.lines, ClearedLines(i.lines, clearing));
  }

  /** completeThreeWayMatch: an invoice that is not POSTED yet is posted at the time of the call for the order's entity
      and vendor; the match remembers the account it credited. */
  lemma CompletionRows(q: Purchasing, master: Master, id: MatchId, control: AccountId, user: UserId, now: Date)
    ensures
      var o := MatchCompleted(q, master, id, control, user, now);
      var there := id < |q.matches| && q.matches[id].order < |q.orders|
                   && q.matches[id].invoice < |q.payables.invoices|;
      && (o.result.Err? ==> o.purchasing == q)
      && (!there ==> o.result == Err(NotFound))
      && (there ==>
            && var m := q.matches[id];
            && var i, order, after := q.payables.invoices[m.invoice], q.orders[m.order], o.purchasing.payables;
            && var journal := InvoiceJournal(AsMatched(i, order, m.clearing), control);
            && var answer := PostSystem(q.payables.ledger, master, EntryInput(order.entity, now, journal), user).result;
            && o.result == (if i.status == InvoiceStatus.POSTED then Err(Conflict)
                            else if answer.Ok? then Ok(id) else answer)
            && (o.result.Ok? ==>
                  && MatchEntry(i.lines, order, m.clearing, control, LastEntry(after.ledger))
                  && EntryAdded(q.payables.ledger, after.ledger, order.entity, now, user, LastEntry(after.ledger))
                  && var invoices := q.payables.invoices[m.invoice := i.(status := InvoiceStatus.POSTED)];
                  && after == q.payables.(ledger := after.ledger, invoices := invoices)
                  && o.purchasing.orders == q.orders
                  && o.purchasing.matches == q.matches[id := m.(creditedTo := Some(control))]))
  {
    hide PostSystem, StoreLines, MatchEntry, InvoiceJournal, MonthAdded, NumberTaken, AsMatched;
    if id < |q.matches| && q.matches[id].order < |q.orders| && q.matches[id].invoice < |q.payables.invoices| {
      var m := q.matches[id];
      var i, order := q.payables.invoices[m.invoice], q.orders[m.order];
      var journal := InvoiceJournal(AsMatched(i, order, m.clearing), control);
      MatchStored(i, order, m.clearing, control);
      SystemEntryAdds(q.payables.ledger, master, EntryInput(order.entity, now, journal), user);
    }
  }
}
