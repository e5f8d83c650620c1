/** Payables and procurement over whole runs: what the control account, the vendor ledger and the invoices say of a
vendor, and exactly when they say the same. */
module PurchasingRuns {
  import opened Money
  import opened Sums
  import opened Ledger
  import opened Reversal
  import opened ControlAccount
  import opened AccountsPayable
  import opened Procurement
  import opened PayablesRuns

  // ---- Steps ----

  datatype PurchasingStep =
    | Pay(step: PayablesStep)
    | PlaceOrder(placed: PurchaseOrder)
    | Bill(master: Master, activeVendors: set<VendorId>, bill: BillInput)
    | Pair(order: OrderId, receipt: Option<Receipt>, invoice: InvoiceId)
    | Complete(master: Master, id: MatchId, control: AccountId, user: UserId, now: Calendar.Date)

  function ApplyPurchasing(q: Purchasing, s: PurchasingStep): Purchasing {
    match s
    case Pay(step) => q.(payables := ApplyPayables(q.payables, step))
    case PlaceOrder(order) => q.(orders := q.orders + [order])
    case Bill(master, activeVendors, bill) => Billed(q, master, activeVendors, bill).purchasing
    case Pair(order, receipt, invoice) => MatchCreated(q, order, receipt, invoice).purchasing
    case Complete(master, id, control, user, now) => MatchCompleted(q, master, id, control, user, now).purchasing
  }

  function RunPurchasing(q: Purchasing, steps: seq<PurchasingStep>): Purchasing
    decreases |steps|
  {
    if steps == [] then q else RunPurchasing(ApplyPurchasing(q, steps[0]), steps[1..])
  }

  const NO_PURCHASING := Purchasing(Payables(EMPTY, [], [], [], []), [], [])

  // ---- Links ----

  predicate InvoiceLinked(q: Purchasing, i: Invoice) {
    i.order.Some? ==> i.order.value < |q.orders| && q.orders[i.order.value].vendor == i.vendor
  }

  predicate MatchLinked(q: Purchasing, m: ThreeWayMatch) {
    && m.order < |q.orders| && m.invoice < |q.payables.invoices|
    && (q.payables.invoices[m.invoice].order.Some? ==> q.payables.invoices[m.invoice].order == Some(m.order))
    && (m.creditedTo.Some? ==> q.payables.invoices[m.invoice].status == InvoiceStatus.POSTED)
  }

  /** Matches and invoices point at what exists, an invoice at an order of its own vendor, a match at no other order
      than its invoice does; what a completed match billed is posted. */
  predicate LinksSound(q: Purchasing) {
    && (forall i :: 0 <= i < |q.payables.invoices| ==> InvoiceLinked(q, q.payables.invoices[i]))
    && (forall i :: 0 <= i < |q.matches| ==> MatchLinked(q, q.matches[i]))
  }

  predicate PurchasingSound(q: Purchasing) {
    LinksSound(q) && VouchersSound(q.payables)
  }

  lemma PaidLinksSound(q: Purchasing, step: PayablesStep)
    requires PurchasingSound(q)
    ensures PurchasingSound(ApplyPurchasing(q, Pay(step)))
  {
    var after := ApplyPurchasing(q, Pay(step));
    StepFollows(q.payables, step);
    StepVouchersSound(q.payables, step);
    hide ApplyPayables, VouchersSound;
    forall i | 0 <= i < |after.payables.invoices|
      ensures InvoiceLinked(after, after.payables.invoices[i])
    {
      if i < |q.payables.invoices| {
        assert InvoiceLinked(q, q.payables.invoices[i]);
        assert KeepsInvoice(q.payables.invoices[i], after.payables.invoices[i]);
      }
    }
    forall i | 0 <= i < |q.matches|
      ensures MatchLinked(after, q.matches[i])
    {
      assert MatchLinked(q, q.matches[i]);
      assert KeepsInvoice(q.payables.invoices[q.matches[i].invoice], after.payables.invoices[q.matches[i].invoice]);
    }
  }

  /** More orders and more invoices, and invoices that become posted, break no link and no voucher. */
  predicate Widens(q: Purchasing, after: Purchasing) {
    && q.orders <= after.orders && |q.payables.invoices| <= |after.payables.invoices|
    && after.payables.vouchers == q.payables.vouchers
    && (forall i :: 0 <= i < |q.payables.invoices| ==>
          var i0, i1 := q.payables.invoices[i], after.payables.invoices[i];
          && i1 == i0.(status := i1.status)
          && (i1.status == i0.status || i1.status == InvoiceStatus.POSTED))
    && (forall i :: |q.payables.invoices| <= i < |after.payables.invoices| ==>
          InvoiceLinked(after, after.payables.invoices[i]))
  }

  lemma WidenedSound(q: Purchasing, after: Purchasing)
    requires PurchasingSound(q) && Widens(q, after)
    requires forall i :: 0 <= i < |after.matches| ==>
               MatchLinked(after, after.matches[i]) || (i < |q.matches| && after.matches[i] == q.matches[i])
    ensures PurchasingSound(after)
  {
    forall i | 0 <= i < |after.payables.invoices|
      ensures InvoiceLinked(after, after.payables.invoices[i])
    {
      if i < |q.payables.invoices| {
        assert InvoiceLinked(q, q.payables.invoices[i]);
      }
    }
    forall i | 0 <= i < |after.matches|
      ensures MatchLinked(after, after.matches[i])
    {
      if i < |q.matches| && after.matches[i] == q.matches[i] {
        assert MatchLinked(q, q.matches[i]);
      }
    }
    forall i | 0 <= i < |after.payables.vouchers|
      ensures PaysOneVendor(after.payables, after.payables.vouchers[i].vendor, after.payables.vouchers[i].allocations)
    {
      assert PaysOneVendor(q.payables, q.payables.vouchers[i].vendor, q.payables.vouchers[i].allocations);
      forall a | a in after.payables.vouchers[i].allocations
        ensures PaysVendor(after.payables, after.payables.vouchers[i].vendor, a)
      {
        assert PaysVendor(q.payables, q.payables.vouchers[i].vendor, a);
      }
    }
  }

  lemma BillWidens(q: Purchasing, s: PurchasingStep)
    requires s.Bill?
    ensures Widens(q, ApplyPurchasing(q, s)) && ApplyPurchasing(q, s).matches == q.matches
  {
    hide HasInvoice, BilledLines;
  }

  lemma CompleteWidens(q: Purchasing, s: PurchasingStep)
    requires s.Complete? && (s.id < |q.matches| ==> MatchLinked(q, q.matches[s.id]))
    ensures
      var after := ApplyPurchasing(q, s);
      && Widens(q, after) && |after.matches| == |q.matches|
      && forall i :: 0 <= i < |after.matches| ==>
          after.matches[i] == q.matches[i] || MatchLinked(after, after.matches[i])
  {
    hide PostSystem, InvoiceJournal;
  }

  lemma StepPurchasingSound(q: Purchasing, s: PurchasingStep)
    requires PurchasingSound(q)
    ensures PurchasingSound(ApplyPurchasing(q, s))
  {
    hide PurchasingSound, Billed, MatchCompleted, MatchLinked, Widens;
    match s
    case Pay(step) => PaidLinksSound(q, step);
    case PlaceOrder(_) =>
      WidensByOrder(q, s);
      WidenedSound(q, ApplyPurchasing(q, s));
    case Bill(_, _, _) =>
      BillWidens(q, s);
      WidenedSound(q, ApplyPurchasing(q, s));
    case Pair(_, _, _) =>
      PairWidens(q, s);
      WidenedSound(q, ApplyPurchasing(q, s));
    case Complete(_, id, _, _, _) =>
      if id < |q.matches| {
        LinkOf(q, id);
      }
      CompleteWidens(q, s);
      WidenedSound(q, ApplyPurchasing(q, s));
  }

  lemma WidensByOrder(q: Purchasing, s: PurchasingStep)
    requires s.PlaceOrder?
    ensures Widens(q, ApplyPurchasing(q, s)) && ApplyPurchasing(q, s).matches == q.matches
  {
  }

  lemma PairWidens(q: Purchasing, s: PurchasingStep)
    requires s.Pair?
    ensures
      var after := ApplyPurchasing(q, s);
      && Widens(q, after) && |q.matches| <= |after.matches|
      && (forall i :: 0 <= i < |q.matches| ==> after.matches[i] == q.matches[i])
      && forall i :: |q.matches| <= i < |after.matches| ==> MatchLinked(after, after.matches[i])
  {
  }

  lemma LinkOf(q: Purchasing, id: MatchId)
    requires PurchasingSound(q) && id < |q.matches|
    ensures MatchLinked(q, q.matches[id])
  {
  }

  // ---- What completed matches billed ----

  function BilledAmount(q: Purchasing, m: ThreeWayMatch): int {
    if m.invoice < |q.payables.invoices| then Store(Total(q.payables.invoices[m.invoice])) else 0
  }

  predicate Credits(q: Purchasing, c: AccountId, e: Option<EntityId>, v: VendorId, m: ThreeWayMatch) {
    && m.creditedTo == Some(c) && m.order < |q.orders|
    && q.orders[m.order].vendor == v && Concerns(e, q.orders[m.order].entity)
  }

  predicate Bills(q: Purchasing, v: VendorId, byOrder: bool, m: ThreeWayMatch) {
    && m.creditedTo.Some? && m.invoice < |q.payables.invoices|
    && q.payables.invoices[m.invoice].vendor == v && q.payables.invoices[m.invoice].order.Some? == byOrder
  }

  function MatchCreditOf(q: Purchasing, c: AccountId, e: Option<EntityId>, v: VendorId): ThreeWayMatch -> int {
    (m: ThreeWayMatch) => if Credits(q, c, e, v, m) then BilledAmount(q, m) else 0
  }

  function MatchBillOf(q: Purchasing, v: VendorId, byOrder: bool): ThreeWayMatch -> int {
    (m: ThreeWayMatch) => if Bills(q, v, byOrder, m) then BilledAmount(q, m) else 0
  }

  /** What completed matches credited to the account for orders of the vendor. */
  function MatchCredit(q: Purchasing, c: AccountId, e: Option<EntityId>, v: VendorId): int {
    Sum(q.matches, MatchCreditOf(q, c, e, v))
  }

  /** The totals of the vendor's invoices that completed matches posted: those that name an order, or those that do not.
      */
  function MatchBilled(q: Purchasing, v: VendorId, byOrder: bool): int {
    Sum(q.matches, MatchBillOf(q, v, byOrder))
  }

  // ---- The vendor's invoices ----

  function DirectOn(v: VendorId, i: Invoice): int {
    if i.vendor == v && i.order.None?
    then (if i.status == InvoiceStatus.POSTED then Store(Total(i)) else 0) - i.amountPaid else 0
  }

  function DirectFor(v: VendorId): Invoice -> int {
    (i: Invoice) => DirectOn(v, i)
  }

  function PaidOrderedOn(v: VendorId, i: Invoice): int {
    if i.vendor == v && i.order.Some? then i.amountPaid else 0
  }

  function PaidOrderedFor(v: VendorId): Invoice -> int {
    (i: Invoice) => PaidOrderedOn(v, i)
  }

  function PostedOrderedOn(v: VendorId, i: Invoice): int {
    if i.vendor == v && i.order.Some? && i.status == InvoiceStatus.POSTED then Store(Total(i)) else 0
  }

  function PostedOrderedFor(v: VendorId): Invoice -> int {
    (i: Invoice) => PostedOrderedOn(v, i)
  }

  /** The stored total less amountPaid, over the vendor's posted direct invoices. */
  function Direct(q: Purchasing, v: VendorId): int {
    Sum(q.payables.invoices, DirectFor(v))
  }

  /** amountPaid, over the vendor's invoices that name an order. */
  function PaidOrdered(q: Purchasing, v: VendorId): int {
    Sum(q.payables.invoices, PaidOrderedFor(v))
  }

  /** The stored totals of the vendor's posted invoices that name an order. */
  function PostedOrdered(q: Purchasing, v: VendorId): int {
    Sum(q.payables.invoices, PostedOrderedFor(v))
  }

  /** The vendor's final statement balance, in one entity or over all. */
  function Statement(q: Purchasing, e: Option<EntityId>, v: VendorId): int {
    Sum(q.payables.vendorLedger, VendorBalance(e, v))
  }

  function ControlBalance(q: Purchasing, c: AccountId, e: Option<EntityId>, v: VendorId): int {
    Owed(q.payables.ledger, OnControl(c, e, v))
  }

  lemma OpenIsDirect(q: Purchasing, v: VendorId)
    ensures Sum(q.payables.invoices, OpenFor(v)) == Direct(q, v) - PaidOrdered(q, v)
  {
    hide Sum, Total, Store;
    SumMinus(q.payables.invoices, OpenFor(v), DirectFor(v), PaidOrderedFor(v));
  }

  // ---- The invariant ----

  predicate Balances(q: Purchasing, c: AccountId, e: Option<EntityId>, v: VendorId) {
    && ControlAgrees(q.payables, c, e, v, MatchCredit(q, c, e, v))
    && InvoicesAgree(q.payables, v, MatchBilled(q, v, false))
    && PostedOrdered(q, v) == MatchBilled(q, v, true)
  }

  /** The account has no other role: other lines of invoices, of clearing, cash and taxes, and of other calls avoid it.
      */
  predicate Role(q: Purchasing, s: PurchasingStep, c: AccountId) {
    match s
    case Pay(step) => ControlRole(q.payables, step, c)
    case Complete(_, id, _, _, _) =>
      id < |q.matches| && q.matches[id].order < |q.orders| && q.matches[id].invoice < |q.payables.invoices| ==>
        InvoiceAvoids(AsMatched(q.payables.invoices[q.matches[id].invoice], q.orders[q.matches[id].order],
                                q.matches[id].clearing), c)
    case _ => true
  }

  predicate RunRole(q: Purchasing, steps: seq<PurchasingStep>, c: AccountId)
    decreases |steps|
  {
    steps == [] || (Role(q, steps[0], c) && RunRole(ApplyPurchasing(q, steps[0]), steps[1..], c))
  }

  predicate KeepsBilling(i: Invoice, after: Invoice) {
    after.vendor == i.vendor && after.order == i.order && after.lines == i.lines
  }

  /** Matches weigh the same when orders and invoices are only added to, and keep what they bill. */
  lemma WeightsKept(q: Purchasing, after: Purchasing, c: AccountId, e: Option<EntityId>, v: VendorId)
    requires LinksSound(q) && q.orders <= after.orders && |q.payables.invoices| <= |after.payables.invoices|
    requires forall i :: 0 <= i < |q.payables.invoices| ==>
          KeepsBilling(q.payables.invoices[i], after.payables.invoices[i])
    ensures Sum(q.matches, MatchCreditOf(after, c, e, v)) == MatchCredit(q, c, e, v)
    ensures forall byOrder :: Sum(q.matches, MatchBillOf(after, v, byOrder)) == MatchBilled(q, v, byOrder)
  {
    hide Sum, Store;
    forall m, byOrder | m in q.matches
      ensures MatchCreditOf(after, c, e, v)(m) == MatchCreditOf(q, c, e, v)(m)
      ensures MatchBillOf(after, v, byOrder)(m) == MatchBillOf(q, v, byOrder)(m)
    {
      var k :| 0 <= k < |q.matches| && q.matches[k] == m;
      assert MatchLinked(q, m);
      assert KeepsBilling(q.payables.invoices[m.invoice], after.payables.invoices[m.invoice]);
    }
    SumSame(q.matches, MatchCreditOf(after, c, e, v), MatchCreditOf(q, c, e, v));
    SumSame(q.matches, MatchBillOf(after, v, true), MatchBillOf(q, v, true));
    SumSame(q.matches, MatchBillOf(after, v, false), MatchBillOf(q, v, false));
  }

  lemma {:induction false} OrderedKept(s: seq<Invoice>, t: seq<Invoice>, v: VendorId)
    requires |s| <= |t| && forall i :: 0 <= i < |s| ==> KeepsInvoice(s[i], t[i])
    requires forall i :: |s| <= i < |t| ==> t[i].order.None?
    ensures Sum(t, PostedOrderedFor(v)) == Sum(s, PostedOrderedFor(v))
  {
    assert t == t[..|s|] + t[|s|..];
    forall i | 0 <= i < |s|
      ensures PostedOrderedFor(v)(t[..|s|][i]) == PostedOrderedFor(v)(s[i])
    {
      assert KeepsInvoice(s[i], t[i]);
    }
    hide Total, Store;
    SumMapped(t[..|s|], s, PostedOrderedFor(v), PostedOrderedFor(v));
    SumZero(t[|s|..], PostedOrderedFor(v));
    SumConcat(t[..|s|], t[|s|..], PostedOrderedFor(v));
  }

  lemma PaidBalances(q: Purchasing, step: PayablesStep, c: AccountId, e: Option<EntityId>, v: VendorId)
    requires PurchasingSound(q) && Balances(q, c, e, v) && ControlRole(q.payables, step, c)
    ensures Balances(ApplyPurchasing(q, Pay(step)), c, e, v)
  {
    var after := ApplyPurchasing(q, Pay(step));
    hide ApplyPayables, ControlRole, ControlAgrees, InvoicesAgree, VouchersSound, Sum, MatchCreditOf, MatchBillOf;
    StepFollows(q.payables, step);
    assert forall i :: 0 <= i < |q.payables.invoices| ==>
          KeepsInvoice(q.payables.invoices[i], after.payables.invoices[i]);
    StepControlAgrees(q.payables, step, c, e, v, MatchCredit(q, c, e, v));
    StepInvoicesAgree(q.payables, step, v, MatchBilled(q, v, false));
    WeightsKept(q, after, c, e, v);
    OrderedKept(q.payables.invoices, after.payables.invoices, v);
  }

  // ---- Procurement's own steps ----

  lemma OrderBalances(q: Purchasing, order: PurchaseOrder, c: AccountId, e: Option<EntityId>, v: VendorId)
    requires PurchasingSound(q) && Balances(q, c, e, v)
    ensures Balances(ApplyPurchasing(q, PlaceOrder(order)), c, e, v)
  {
    hide Sum, MatchCreditOf, MatchBillOf, ControlAgrees, InvoicesAgree, VouchersSound;
    WeightsKept(q, ApplyPurchasing(q, PlaceOrder(order)), c, e, v);
  }

  lemma AddedBalances(q: Purchasing, i: Invoice, c: AccountId, e: Option<EntityId>, v: VendorId)
    requires PurchasingSound(q) && Balances(q, c, e, v) && i.status != InvoiceStatus.POSTED && i.amountPaid == 0
    ensures Balances(q.(payables := q.payables.(invoices := q.payables.invoices + [i])), c, e, v)
  {
    var after := q.(payables := q.payables.(invoices := q.payables.invoices + [i]));
    hide Sum, MatchCreditOf, MatchBillOf, VouchersSound, Total, Store, Owed, VendorBalance, OnControl;
    WeightsKept(q, after, c, e, v);
    SumAppend(q.payables.invoices, i, OpenFor(v));
    SumAppend(q.payables.invoices, i, PostedOrderedFor(v));
  }

  lemma BillBalances(q: Purchasing, s: PurchasingStep, c: AccountId, e: Option<EntityId>, v: VendorId)
    requires s.Bill? && PurchasingSound(q) && Balances(q, c, e, v)
    ensures Balances(ApplyPurchasing(q, s), c, e, v)
  {
    hide PurchasingSound, Balances, HasInvoice, BilledLines;
    var after := ApplyPurchasing(q, s);
    if after != q {
      AddedBalances(q, after.payables.invoices[|q.payables.invoices|], c, e, v);
    }
  }

  lemma PairBalances(q: Purchasing, s: PurchasingStep, c: AccountId, e: Option<EntityId>, v: VendorId)
    requires s.Pair? && Balances(q, c, e, v)
    ensures Balances(ApplyPurchasing(q, s), c, e, v)
  {
    var after := ApplyPurchasing(q, s);
    if after != q {
      var m := after.matches[|q.matches|];
      hide Sum, BilledAmount, ControlAgrees, InvoicesAgree;
      assert after.payables == q.payables && after.orders == q.orders;
      assert MatchCreditOf(after, c, e, v)(m) == 0 && MatchBillOf(after, v, true)(m) == 0;
      assert MatchBillOf(after, v, false)(m) == 0;
      SumAppend(q.matches, m, MatchCreditOf(after, c, e, v));
      SumAppend(q.matches, m, MatchBillOf(after, v, true));
      SumAppend(q.matches, m, MatchBillOf(after, v, false));
      SameWeights(q, after, c, e, v);
    }
  }

  /** The ledger has no part in what matches weigh. */
  lemma SameWeights(q: Purchasing, after: Purchasing, c: AccountId, e: Option<EntityId>, v: VendorId)
    requires after.payables.invoices == q.payables.invoices && after.orders == q.orders
    ensures Sum(q.matches, MatchCreditOf(after, c, e, v)) == MatchCredit(q, c, e, v)
    ensures forall byOrder :: Sum(q.matches, MatchBillOf(after, v, byOrder)) == MatchBilled(q, v, byOrder)
  {
    assert forall m :: BilledAmount(after, m) == BilledAmount(q, m);
    hide Sum, BilledAmount;
    SumSame(q.matches, MatchCreditOf(after, c, e, v), MatchCreditOf(q, c, e, v));
    SumSame(q.matches, MatchBillOf(after, v, true), MatchBillOf(q, v, true));
    SumSame(q.matches, MatchBillOf(after, v, false), MatchBillOf(q, v, false));
  }

  lemma ClearedTotal(i: Invoice, order: PurchaseOrder, clearing: AccountId)
    ensures Total(AsMatched(i, order, clearing)) == Total(i)
  {
    var cleared := ClearedLines(i.lines, clearing);
    SumRealMapped(cleared, i.lines, LineValue, LineValue);
  }

  /** The journal of a completed match puts the invoice total on its control account, and nothing on another account it
      avoids. */
  lemma CompletedNet(i: Invoice, control: AccountId, c: AccountId, e: Option<EntityId>, v: VendorId)
    requires InvoiceAvoids(i, c)
    ensures Net(StoreLines(i.entity, InvoiceJournal(i, control)), OnControl(c, e, v))
            == if control == c && i.vendor == v && Concerns(e, i.entity) then -Store(Total(i)) else 0
  {
    if control == c {
      InvoiceNet(i, c, e, v);
    } else {
      var journal := InvoiceJournal(i, control);
      forall line | line in journal
        ensures line.account != c
      {
        var k :| 0 <= k < |journal| && journal[k] == line;
        if k < |i.lines| {
          assert i.lines[k] in i.lines;
        }
      }
      StoredAvoid(i.entity, journal, c);
      AvoidedNet(StoreLines(i.entity, journal), c, OnControl(c, e, v));
    }
  }

  lemma CompletedAgrees(q: Purchasing, s: PurchasingStep, c: AccountId, e: Option<EntityId>, v: VendorId)
    requires s.Complete? && PurchasingSound(q) && Role(q, s, c) && Balances(q, c, e, v)
    requires MatchCompleted(q, s.master, s.id, s.control, s.user, s.now).result.Ok?
    ensures
      var after, m := ApplyPurchasing(q, s), q.matches[s.id];
      var credit := if s.control == c && q.orders[m.order].vendor == v && Concerns(e, q.orders[m.order].entity)
                    then BilledAmount(q, m) else 0;
      ControlAgrees(after.payables, c, e, v, MatchCredit(q, c, e, v) + credit)
  {
    var m := q.matches[s.id];
    var order := q.orders[m.order];
    var matched := AsMatched(q.payables.invoices[m.invoice], order, m.clearing);
    var input := EntryInput(order.entity, s.now, InvoiceJournal(matched, s.control));
    ClearedTotal(q.payables.invoices[m.invoice], order, m.clearing);
    CompletedNet(matched, s.control, c, e, v);
    hide PostSystem, Owed, Net, Sum, StoreLines, InvoiceJournal, Total, Store, PurchasingSound, MatchCredit,
         InvoicesAgree;
    SystemEntryMoves(q.payables.ledger, s.master, input, s.user, OnControl(c, e, v));
  }

  lemma CompletedOpens(q: Purchasing, id: InvoiceId, v: VendorId)
    requires id < |q.payables.invoices| && q.payables.invoices[id].status != InvoiceStatus.POSTED
    ensures
      var i := q.payables.invoices[id];
      var posted := q.payables.invoices[id := i.(status := InvoiceStatus.POSTED)];
      var amount := if i.vendor == v then Store(Total(i)) else 0;
      && Sum(posted, OpenFor(v)) == Sum(q.payables.invoices, OpenFor(v)) + (if i.order.None? then amount else 0)
      && Sum(posted, PostedOrderedFor(v)) == PostedOrdered(q, v) + if i.order.Some? then amount else 0
  {
    var i := q.payables.invoices[id];
    var posted := i.(status := InvoiceStatus.POSTED);
    assert Total(posted) == Total(i);
    hide Sum, Total, Store;
    SumUpdate(q.payables.invoices, id, posted, OpenFor(v));
    SumUpdate(q.payables.invoices, id, posted, PostedOrderedFor(v));
  }

  lemma DoneWeights(q: Purchasing, after: Purchasing, id: MatchId, control: AccountId, c: AccountId,
                    e: Option<EntityId>, v: VendorId)
    requires LinksSound(q) && id < |q.matches| && q.matches[id].creditedTo.None? && after.orders == q.orders
    requires |after.payables.invoices| == |q.payables.invoices|
    requires forall i :: 0 <= i < |q.payables.invoices| ==>
          KeepsBilling(q.payables.invoices[i], after.payables.invoices[i])
    requires after.matches == q.matches[id := q.matches[id].(creditedTo := Some(control))]
    ensures
      var m := q.matches[id];
      && m.order < |q.orders| && m.invoice < |q.payables.invoices|
      && var order, i := q.orders[m.order], q.payables.invoices[m.invoice];
      && MatchCredit(after, c, e, v) == MatchCredit(q, c, e, v)
           + (if control == c && order.vendor == v && Concerns(e, order.entity) then BilledAmount(q, m) else 0)
      && MatchBilled(after, v, true) == MatchBilled(q, v, true)
           + (if i.vendor == v && i.order.Some? then BilledAmount(q, m) else 0)
      && MatchBilled(after, v, false) == MatchBilled(q, v, false)
           + (if i.vendor == v && i.order.None? then BilledAmount(q, m) else 0)
  {
    var m := q.matches[id];
    var done := m.(creditedTo := Some(control));
    assert MatchLinked(q, m);
    WeightsKept(q, after, c, e, v);
    assert KeepsBilling(q.payables.invoices[m.invoice], after.payables.invoices[m.invoice]);
    assert BilledAmount(after, done) == BilledAmount(q, m);
    hide Sum, LinksSound, BilledAmount;
    SumUpdate(q.matches, id, done, MatchCreditOf(after, c, e, v));
    SumUpdate(q.matches, id, done, MatchBillOf(after, v, true));
    SumUpdate(q.matches, id, done, MatchBillOf(after, v, false));
  }

  /** Completing a match adds its amount to what matches credit and bill. */
  lemma CompletedWeights(q: Purchasing, s: PurchasingStep, c: AccountId, e: Option<EntityId>, v: VendorId)
    requires s.Complete? && PurchasingSound(q)
    requires MatchCompleted(q, s.master, s.id, s.control, s.user, s.now).result.Ok?
    ensures
      var after, m := ApplyPurchasing(q, s), q.matches[s.id];
      var order, i := q.orders[m.order], q.payables.invoices[m.invoice];
      && MatchCredit(after, c, e, v) == MatchCredit(q, c, e, v)
           + (if s.control == c && order.vendor == v && Concerns(e, order.entity) then BilledAmount(q, m) else 0)
      && MatchBilled(after, v, true) == MatchBilled(q, v, true)
           + (if i.vendor == v && i.order.Some? then BilledAmount(q, m) else 0)
      && MatchBilled(after, v, false) == MatchBilled(q, v, false)
           + (if i.vendor == v && i.order.None? then BilledAmount(q, m) else 0)
  {
    LinkOf(q, s.id);
    hide PostSystem, InvoiceJournal, VouchersSound, LinksSound, MatchCredit, MatchBilled, BilledAmount, Concerns;
    DoneWeights(q, ApplyPurchasing(q, s), s.id, s.control, c, e, v);
  }

  lemma CompleteBalances(q: Purchasing, s: PurchasingStep, c: AccountId, e: Option<EntityId>, v: VendorId)
    requires s.Complete? && PurchasingSound(q) && Role(q, s, c) && Balances(q, c, e, v)
    ensures Balances(ApplyPurchasing(q, s), c, e, v)
  {
    hide PostSystem, Sum, InvoiceJournal, Role, PurchasingSound;
    if MatchCompleted(q, s.master, s.id, s.control, s.user, s.now).result.Ok? {
      var m := q.matches[s.id];
      CompletedAgrees(q, s, c, e, v);
      CompletedWeights(q, s, c, e, v);
      CompletedOpens(q, m.invoice, v);
      hide MatchCredit, MatchBilled, ControlAgrees, Store, Total;
      assert BilledAmount(q, m) == Store(Total(q.payables.invoices[m.invoice]));
    } else {
      RefusedUnchanged(q, s);
    }
  }

  lemma RefusedPosting(l: Ledger, master: Master, input: EntryInput, user: UserId)
    requires PostSystem(l, master, input, user).result.Err?
    ensures PostSystem(l, master, input, user).ledger == l
  {
  }

  /** A refused completion leaves nothing behind. */
  lemma RefusedUnchanged(q: Purchasing, s: PurchasingStep)
    requires s.Complete? && MatchCompleted(q, s.master, s.id, s.control, s.user, s.now).result.Err?
    ensures ApplyPurchasing(q, s) == q
  {
    hide PostSystem, InvoiceJournal, AsMatched;
    if s.id < |q.matches| {
      var m := q.matches[s.id];
      if m.order < |q.orders| && m.invoice < |q.payables.invoices| {
        var order := q.orders[m.order];
        var journal := InvoiceJournal(AsMatched(q.payables.invoices[m.invoice], order, m.clearing), s.control);
        var input := EntryInput(order.entity, s.now, journal);
        if PostSystem(q.payables.ledger, s.master, input, s.user).result.Err? {
          RefusedPosting(q.payables.ledger, s.master, input, s.user);
        }
      }
    }
  }

  lemma StepBalances(q: Purchasing, s: PurchasingStep, c: AccountId, e: Option<EntityId>, v: VendorId)
    requires PurchasingSound(q) && Balances(q, c, e, v) && Role(q, s, c)
    ensures Balances(ApplyPurchasing(q, s), c, e, v)
  {
    hide PurchasingSound, Balances, ApplyPurchasing, ControlRole;
    match s
    case Pay(step) => PaidBalances(q, step, c, e, v);
    case PlaceOrder(order) => OrderBalances(q, order, c, e, v);
    case Bill(_, _, _) => BillBalances(q, s, c, e, v);
    case Pair(_, _, _) => PairBalances(q, s, c, e, v);
    case Complete(_, _, _, _, _) => CompleteBalances(q, s, c, e, v);
  }

  lemma {:induction false} RunBalances(q: Purchasing, steps: seq<PurchasingStep>, c: AccountId, e: Option<EntityId>,
                                       v: VendorId)
    requires PurchasingSound(q) && Balances(q, c, e, v) && RunRole(q, steps, c)
    ensures PurchasingSound(RunPurchasing(q, steps)) && Balances(RunPurchasing(q, steps), c, e, v)
    decreases |steps|
  {
    hide PurchasingSound, Balances, ApplyPurchasing, Role;
    if steps != [] {
      StepPurchasingSound(q, steps[0]);
      StepBalances(q, steps[0], c, e, v);
      RunBalances(ApplyPurchasing(q, steps[0]), steps[1..], c, e, v);
    }
  }

  // ---- Main results ----

  /** After every run with one control account in no other role, for every vendor: the account is the vendor's statement
      and what matches credited to it; the open direct invoices are the statement, what was paid on invoices that name
      an order, and what matches posted of those that name none; and what is posted of those that name an order is what
      matches billed of them. */
  lemma ThreeBalances(steps: seq<PurchasingStep>, c: AccountId, e: Option<EntityId>, v: VendorId)
    requires RunRole(NO_PURCHASING, steps, c)
    ensures
      var q := RunPurchasing(NO_PURCHASING, steps);
      && PurchasingSound(q)
      && ControlBalance(q, c, e, v) == Statement(q, e, v) + MatchCredit(q, c, e, v)
      && Direct(q, v) == Statement(q, None, v) + PaidOrdered(q, v) + MatchBilled(q, v, false)
      && PostedOrdered(q, v) == MatchBilled(q, v, true)
  {
    var q := RunPurchasing(NO_PURCHASING, steps);
    assert BooksNets(EMPTY, OnControl(c, e, v)) == [];
    assert PurchasingSound(NO_PURCHASING) && Balances(NO_PURCHASING, c, e, v);
    hide RunPurchasing, RunRole, PurchasingSound, Sum, Owed;
    RunBalances(NO_PURCHASING, steps, c, e, v);
    OpenIsDirect(q, v);
  }

  /** The statement of a vendor in an entity, its entries as the query returns them, ends on the control balance there
      exactly when completed matches credited nothing to the account for the vendor's orders there. */
  lemma StatementIsControlExactly(steps: seq<PurchasingStep>, c: AccountId, entity: EntityId, v: VendorId,
                                  entries: seq<VendorEntry>)
    requires RunRole(NO_PURCHASING, steps, c)
    requires StatementQueried(RunPurchasing(NO_PURCHASING, steps).payables.vendorLedger,
                              Selection(entity, v, None, None), entries)
    ensures
      var q := RunPurchasing(NO_PURCHASING, steps);
      Sum(entries, BalanceOf) == ControlBalance(q, c, Some(entity), v) <==> MatchCredit(q, c, Some(entity), v) == 0
  {
    var q := RunPurchasing(NO_PURCHASING, steps);
    var rows := q.payables.vendorLedger;
    hide RunPurchasing, RunRole, PurchasingSound, Sum, ControlBalance, MatchCredit, StatementRows;
    ThreeBalances(steps, c, Some(entity), v);
    StatementSum(rows, entity, v);
    SumPermuted(entries, StatementRows(rows, Selection(entity, v, None, None)), BalanceOf);
  }

  lemma {:induction false} StatementSum(rows: seq<VendorEntry>, entity: EntityId, vendor: VendorId)
    ensures Sum(StatementRows(rows, Selection(entity, vendor, None, None)), BalanceOf)
            == Sum(rows, VendorBalance(Some(entity), vendor))
  {
    if rows != [] {
      StatementSum(rows[1..], entity, vendor);
      var selection := Selection(entity, vendor, None, None);
      var rest := StatementRows(rows[1..], selection);
      if InStatement(rows[0], selection) {
        assert ([rows[0]] + rest)[1..] == rest;
      } else {
        assert [] + rest == rest;
      }
    }
  }

  /** Exactly when the records of a vendor agree, over all entities: the statement with the open direct invoices, the
      control account with them, and the control account with all posted invoices less all payments. */
  lemma RecordsAgreeExactly(steps: seq<PurchasingStep>, c: AccountId, v: VendorId)
    requires RunRole(NO_PURCHASING, steps, c)
    ensures
      var q := RunPurchasing(NO_PURCHASING, steps);
      var besides := PaidOrdered(q, v) + MatchBilled(q, v, false);
      && (Statement(q, None, v) == Direct(q, v) <==> besides == 0)
      && (ControlBalance(q, c, None, v) == Direct(q, v) <==> MatchCredit(q, c, None, v) == besides)
      && (ControlBalance(q, c, None, v) == Direct(q, v) + PostedOrdered(q, v) - PaidOrdered(q, v)
          <==> MatchCredit(q, c, None, v) == MatchBilled(q, v, true) + MatchBilled(q, v, false))
  {
    hide *;
    ThreeBalances(steps, c, None, v);
  }

  /** Every completed match credited the account, and billed an invoice of the vendor it ordered from. */
  predicate MatchesAgree(q: Purchasing, c: AccountId) {
    forall m :: m in q.matches && m.creditedTo.Some? ==>
      && m.creditedTo.value == c && m.order < |q.orders| && m.invoice < |q.payables.invoices|
      && q.orders[m.order].vendor == q.payables.invoices[m.invoice].vendor
  }

  lemma CreditIsBilled(q: Purchasing, c: AccountId, v: VendorId)
    requires MatchesAgree(q, c)
    ensures MatchCredit(q, c, None, v) == MatchBilled(q, v, true) + MatchBilled(q, v, false)
  {
    hide Sum, BilledAmount;
    SumMinus(q.matches, MatchBillOf(q, v, true), MatchCreditOf(q, c, None, v), MatchBillOf(q, v, false));
  }

  /** When procurement uses the same control account and pairs invoices with orders of the same vendor, the account is
      the stored totals of all the vendor's posted invoices less all payments on them. */
  lemma ControlIsOpenInvoices(steps: seq<PurchasingStep>, c: AccountId, v: VendorId)
    requires RunRole(NO_PURCHASING, steps, c) && MatchesAgree(RunPurchasing(NO_PURCHASING, steps), c)
    ensures
      var q := RunPurchasing(NO_PURCHASING, steps);
      ControlBalance(q, c, None, v) == Direct(q, v) + PostedOrdered(q, v) - PaidOrdered(q, v)
  {
    hide *;
    RecordsAgreeExactly(steps, c, v);
    CreditIsBilled(RunPurchasing(NO_PURCHASING, steps), c, v);
  }

  /** A match can pair vendors that differ only for an invoice that names no order. */
  lemma NamedOrderIsOwnVendor(steps: seq<PurchasingStep>, c: AccountId, id: MatchId)
    requires RunRole(NO_PURCHASING, steps, c) && id < |RunPurchasing(NO_PURCHASING, steps).matches|
    ensures
      var q := RunPurchasing(NO_PURCHASING, steps);
      var m := q.matches[id];
      && m.order < |q.orders| && m.invoice < |q.payables.invoices|
      && (q.payables.invoices[m.invoice].order.Some? ==>
            q.orders[m.order].vendor == q.payables.invoices[m.invoice].vendor)
  {
    var q := RunPurchasing(NO_PURCHASING, steps);
    ThreeBalances(steps, c, None, 0);
    hide RunPurchasing, RunRole, Sum;
    LinkOf(q, id);
    assert InvoiceLinked(q, q.payables.invoices[q.matches[id].invoice]);
  }

  // ---- Totals before rounding ----

  function DirectBalanceOn(v: VendorId, i: Invoice): real {
    if i.vendor == v && i.order.None?
    then (if i.status == InvoiceStatus.POSTED then Total(i) else 0.0) - i.amountPaid as real else 0.0
  }

  /** total - amountPaid, as createPaymentVoucher and the ageing report compute it. */
  function DirectBalanceFor(v: VendorId): Invoice -> real {
    (i: Invoice) => DirectBalanceOn(v, i)
  }

  function Counts(v: VendorId): Invoice -> int {
    (i: Invoice) => if i.vendor == v && DirectAndPosted(i) then 1 else 0
  }

  lemma {:induction false} OpenBalances(invoices: seq<Invoice>, v: VendorId)
    ensures
      var gap := Sum(invoices, DirectFor(v)) as real - SumReal(invoices, DirectBalanceFor(v));
      Abs(gap) <= 0.5 * Sum(invoices, Counts(v)) as real
  {
    if invoices != [] {
      OpenBalances(invoices[1..], v);
      hide Total;
    }
  }

  lemma {:induction false} OpenBalancesExact(invoices: seq<Invoice>, v: VendorId)
    requires forall i :: i in invoices && i.vendor == v && DirectAndPosted(i) ==> WholeCents(Total(i))
    ensures Sum(invoices, DirectFor(v)) as real == SumReal(invoices, DirectBalanceFor(v))
  {
    if invoices != [] {
      OpenBalancesExact(invoices[1..], v);
      if invoices[0].vendor == v && DirectAndPosted(invoices[0]) {
        StoreWhole(Total(invoices[0]).Floor);
      }
      hide Total;
    }
  }

  /** Where control account and direct invoices agree, the account is within half a cent for each posted direct invoice
      of total less amountPaid, and equal when those totals are whole cents. */
  lemma ControlIsOpenBalances(steps: seq<PurchasingStep>, c: AccountId, v: VendorId)
    requires RunRole(NO_PURCHASING, steps, c)
    ensures
      var q := RunPurchasing(NO_PURCHASING, steps);
      var gap := ControlBalance(q, c, None, v) as real - SumReal(q.payables.invoices, DirectBalanceFor(v));
      MatchCredit(q, c, None, v) == PaidOrdered(q, v) + MatchBilled(q, v, false) ==>
        && Abs(gap) <= 0.5 * Sum(q.payables.invoices, Counts(v)) as real
        && ((forall i :: i in q.payables.invoices && i.vendor == v && DirectAndPosted(i) ==> WholeCents(Total(i))) ==>
              gap == 0.0)
  {
    var q := RunPurchasing(NO_PURCHASING, steps);
    hide RunPurchasing, RunRole, ControlBalance, MatchCredit, MatchBilled, PaidOrdered, PostedOrdered, Sum, SumReal,
         Statement;
    RecordsAgreeExactly(steps, c, v);
    OpenBalances(q.payables.invoices, v);
    if forall i :: i in q.payables.invoices && i.vendor == v && DirectAndPosted(i) ==> WholeCents(Total(i)) {
      OpenBalancesExact(q.payables.invoices, v);
    }
  }
}
