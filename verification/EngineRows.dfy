/** What each call of the posting engine accepts, and the rows it leaves, column by column. */
module EngineRows {
  import opened Money
  import opened Sums
  import opened Calendar
  import opened Ledger

  function SuppliedDebit(line: LineInput): real { line.debit }

  function SuppliedCredit(line: LineInput): real { line.credit }

  function StoredDebit(line: Line): int { line.debit }

  function StoredCredit(line: Line): int { line.credit }

  // ---- Validation, with its numbers ----

  /** Debits and credits differ by half a cent at most, and are not both nothing; each line has exactly one side. */
  predicate SidesAgree(lines: seq<LineInput>) {
    var debit, credit := SumReal(lines, SuppliedDebit), SumReal(lines, SuppliedCredit);
    && -0.5 <= debit - credit <= 0.5 && (debit != 0.0 || credit != 0.0)
    && forall line :: line in lines ==>
         (line.debit <= 0.0 || line.credit <= 0.0) && (line.debit != 0.0 || line.credit != 0.0)
  }

  lemma SidesAreChecked(lines: seq<LineInput>)
    ensures SidesAgree(lines) <==> Balanced(lines) && NoZeroLines(lines)
  {
    SumRealMapped(lines, lines, SuppliedDebit, InputDebit);
    SumRealMapped(lines, lines, SuppliedCredit, InputCredit);
    hide SumReal;
  }

  predicate AccountsUsable(master: Master, entity: EntityId, lines: seq<LineInput>) {
    forall line :: line in lines ==> (entity, line.account) in master.postable
  }

  /** The status that the entity's calendar month has, or that it is created with. */
  function MonthStatus(l: Ledger, entity: EntityId, d: Date): PeriodStatus {
    var key := PeriodKey(entity, d.year, d.month);
    if key in l.periods then l.periods[key] else OPEN
  }

  /** Only the month of the date is added, and only when it is missing. */
  predicate MonthAdded(l: Ledger, after: Ledger, entity: EntityId, d: Date) {
    var key := PeriodKey(entity, d.year, d.month);
    after.periods == if key in l.periods then l.periods else l.periods[key := OPEN]
  }

  /** The entity's number for the year of the date goes up by one, from one, and no other number moves. */
  predicate NumberTaken(l: Ledger, after: Ledger, entity: EntityId, d: Date, number: JournalNumber) {
    var last := if (entity, d.year) in l.counters then l.counters[(entity, d.year)] else 0;
    number == Numbered(d.year, last + 1) && after.counters == l.counters[(entity, d.year) := last + 1]
  }

  /** Each line as supplied, its two sides rounded to cents. */
  predicate LinesStored(entity: EntityId, lines: seq<LineInput>, stored: seq<Line>) {
    |stored| == |lines| && forall k :: 0 <= k < |lines| ==>
      stored[k] == Line(lines[k].account, Store(lines[k].debit), Store(lines[k].credit), entity, lines[k].dims)
  }

  // ---- Entries that enter the books at once ----

  /** postSystemEntry: which entries it takes, why it refuses the others, and the row a taken one becomes. */
  lemma SystemEntryRows(l: Ledger, master: Master, input: EntryInput, user: UserId)
    ensures
      var o := PostSystem(l, master, input, user);
      && o.result == (if !SidesAgree(input.lines) then Err(BadRequest)
                      else if input.entity !in master.activeEntities then Err(NotFound)
                      else if MonthStatus(l, input.entity, input.entryDate) != OPEN then Err(Conflict)
                      else if !AccountsUsable(master, input.entity, input.lines) then Err(BadRequest)
                      else Ok(|l.entries|))
      && (o.result.Err? ==> o.ledger == l)
      && (o.result.Ok? ==>
            && |o.ledger.entries| == |l.entries| + 1 && o.ledger.entries[..|l.entries|] == l.entries
            && var e := o.ledger.entries[|l.entries|];
            && e.entity == input.entity && e.entryDate == input.entryDate && e.status == POSTED
            && e.period == PeriodKey(input.entity, input.entryDate.year, input.entryDate.month)
            && e.createdBy == user && e.approvedBy == Some(user) && e.reversalOf == None
            && LinesStored(input.entity, input.lines, e.lines)
            && MonthAdded(l, o.ledger, input.entity, input.entryDate)
            && NumberTaken(l, o.ledger, input.entity, input.entryDate, e.number))
  {
    SidesAreChecked(input.lines);
    hide SidesAgree, Balanced, NoZeroLines, Store;
  }

  const NOWHERE := Dimensions(None, None, None, None, None, None, None, None, None, None)

  /** One entry with these lines is added to the books, in the name of the user, in the month and under the next number
      of its date; all else stays. */
  predicate EntryAdded(l: Ledger, after: Ledger, entity: EntityId, d: Date, user: UserId, lines: seq<Line>) {
    && |after.entries| == |l.entries| + 1 && after.entries[..|l.entries|] == l.entries
    && var e := after.entries[|l.entries|];
    && e.entity == entity && e.entryDate == d && e.period == PeriodKey(entity, d.year, d.month) && e.status == POSTED
    && e.lines == lines && e.createdBy == user && e.approvedBy == Some(user) && e.reversalOf == None
    && MonthAdded(l, after, entity, d) && NumberTaken(l, after, entity, d, e.number)
  }

  lemma SystemEntryAdds(l: Ledger, master: Master, input: EntryInput, user: UserId)
    ensures
      var o := PostSystem(l, master, input, user);
      && (o.result.Err? ==> o.ledger == l)
      && (o.result.Ok? ==>
            && o.result.value == |l.entries|
            && EntryAdded(l, o.ledger, input.entity, input.entryDate, user, StoreLines(input.entity, input.lines)))
  {
    hide Balanced, NoZeroLines, LinesPostable, StoreLines;
  }

  /** What the engine answers to an entry that moves an amount in cents between two accounts. */
  function TransferAnswer(l: Ledger, master: Master, entity: EntityId, d: Date, a: AccountId, b: AccountId,
                    amount: int): Result<EntryId> {
    if amount == 0 then Err(BadRequest)
    else if entity !in master.activeEntities then Err(NotFound)
    else if MonthStatus(l, entity, d) != OPEN then Err(Conflict)
    else if (entity, a) !in master.postable || (entity, b) !in master.postable then Err(BadRequest)
    else Ok(|l.entries|)
  }

  lemma TransferAnswered(l: Ledger, master: Master, input: EntryInput, user: UserId, amount: int)
    requires |input.lines| == 2
    requires
      var x, y := input.lines[0], input.lines[1];
      (x.debit == amount as real == y.credit && x.credit == 0.0 == y.debit)
      || (x.credit == amount as real == y.debit && x.debit == 0.0 == y.credit)
    ensures PostSystem(l, master, input, user).result
            == TransferAnswer(l, master, input.entity, input.entryDate, input.lines[0].account,
                              input.lines[1].account, amount)
  {
    var x, y := input.lines[0], input.lines[1];
    SystemEntryRows(l, master, input, user);
    assert input.lines == [x] + [y];
    SumRealAppend([x], y, SuppliedDebit);
    SumRealAppend([x], y, SuppliedCredit);
    assert SumReal([x], SuppliedDebit) == x.debit && SumReal([x], SuppliedCredit) == x.credit;
    hide PostSystem, SumReal, MonthStatus, MonthAdded, NumberTaken, LinesStored;
    assert x in input.lines && y in input.lines;
  }

  // ---- Drafts and their review ----

  /** createDraft: as a system entry, but a month is shut only when LOCKED, and the month it creates stays when an
      account is refused. */
  lemma DraftRows(l: Ledger, master: Master, input: EntryInput, user: UserId)
    ensures
      var o := CreateDraft(l, master, input, user);
      && o.result == (if !SidesAgree(input.lines) then Err(BadRequest)
                      else if input.entity !in master.activeEntities then Err(NotFound)
                      else if MonthStatus(l, input.entity, input.entryDate) == LOCKED then Err(Conflict)
                      else if !AccountsUsable(master, input.entity, input.lines) then Err(BadRequest)
                      else Ok(|l.entries|))
      && o.ledger.counters == l.counters
      && (if SidesAgree(input.lines) && input.entity in master.activeEntities
          then MonthAdded(l, o.ledger, input.entity, input.entryDate) else o.ledger.periods == l.periods)
      && (o.result.Err? ==> o.ledger.entries == l.entries)
      && (o.result.Ok? ==>
            && |o.ledger.entries| == |l.entries| + 1 && o.ledger.entries[..|l.entries|] == l.entries
            && var e := o.ledger.entries[|l.entries|];
            && e.entity == input.entity && e.entryDate == input.entryDate && e.status == DRAFT && e.number == Unnumbered
            && e.period == PeriodKey(input.entity, input.entryDate.year, input.entryDate.month)
            && e.createdBy == user && e.approvedBy == None && e.reversalOf == None
            && LinesStored(input.entity, input.lines, e.lines))
  {
    SidesAreChecked(input.lines);
    hide SidesAgree, Balanced, NoZeroLines, Store;
  }

  /** Only entry id changes, to what it was but for its status and approver. */
  predicate Restamped(l: Ledger, after: Ledger, id: EntryId, status: EntryStatus, approver: Option<UserId>)
    requires id < |l.entries|
  {
    && after.periods == l.periods && after.counters == l.counters
    && |after.entries| == |l.entries| && after.entries[id] == l.entries[id].(status := status, approvedBy := approver)
    && forall i :: 0 <= i < |l.entries| && i != id ==> after.entries[i] == l.entries[i]
  }

  /** submitForApproval, approve and reject: from which status, by whom, and to which. */
  lemma ReviewRows(l: Ledger, id: EntryId, user: UserId)
    ensures id >= |l.entries| ==>
              Submit(l, id) == Approve(l, id, user) == Reject(l, id) == Outcome(l, Err(NotFound))
    ensures id < |l.entries| ==>
              var e := l.entries[id];
              var submitted, approved, rejected := Submit(l, id), Approve(l, id, user), Reject(l, id);
              && submitted.result == (if e.status == DRAFT then Ok(id) else Err(Conflict))
              && (if e.status == DRAFT then Restamped(l, submitted.ledger, id, PENDING_APPROVAL, e.approvedBy)
                  else submitted.ledger == l)
              && approved.result == (if e.status != PENDING_APPROVAL then Err(Conflict)
                                     else if e.createdBy == user then Err(BadRequest) else Ok(id))
              && (if e.status == PENDING_APPROVAL && e.createdBy != user
                  then Restamped(l, approved.ledger, id, APPROVED, Some(user)) else approved.ledger == l)
              && rejected.result == (if e.status == PENDING_APPROVAL then Ok(id) else Err(Conflict))
              && (if e.status == PENDING_APPROVAL then Restamped(l, rejected.ledger, id, REJECTED, e.approvedBy)
                  else rejected.ledger == l)
  {
  }

  // ---- Posting and reversing ----

  /** post: an APPROVED entry of an OPEN period whose stored sides agree to the cent takes the next number. */
  lemma PostRows(l: Ledger, id: EntryId)
    ensures
      var o := Post(l, id);
      && (id >= |l.entries| ==> o == Outcome(l, Err(NotFound)))
      && (id < |l.entries| ==>
            var e := l.entries[id];
            var shut := e.period !in l.periods || l.periods[e.period] != OPEN;
            && o.result == (if e.status != APPROVED || shut then Err(Conflict)
                            else if Sum(e.lines, StoredDebit) != Sum(e.lines, StoredCredit) then Err(BadRequest)
                            else Ok(id))
            && (o.result.Err? ==> o.ledger == l)
            && (o.result.Ok? ==>
                  && |o.ledger.entries| == |l.entries| && o.ledger.periods == l.periods
                  && (forall i :: 0 <= i < |l.entries| && i != id ==> o.ledger.entries[i] == l.entries[i])
                  && o.ledger.entries[id] == e.(status := POSTED, number := o.ledger.entries[id].number)
                  && NumberTaken(l, o.ledger, e.entity, e.entryDate, o.ledger.entries[id].number)))
  {
    if id < |l.entries| {
      SumSame(l.entries[id].lines, StoredDebit, DebitOf);
      SumSame(l.entries[id].lines, StoredCredit, CreditOf);
      hide Sum;
    }
  }

  /** The same lines with their sides exchanged. */
  predicate SidesExchanged(lines: seq<Line>, swapped: seq<Line>) {
    |swapped| == |lines| && forall k :: 0 <= k < |lines| ==>
      swapped[k] == Line(lines[k].account, lines[k].credit, lines[k].debit, lines[k].entity, lines[k].dims)
  }

  /** reverse: taken exactly when the entry is POSTED and the month of the clock is missing or OPEN. The new entry is
      dated now, sits in that month and takes the next number of that year; the original becomes REVERSED. */
  lemma ReverseRows(l: Ledger, id: EntryId, user: UserId, now: Date)
    ensures
      var o := Reverse(l, id, user, now);
      && (id >= |l.entries| ==> o == Outcome(l, Err(NotFound)))
      && (id < |l.entries| ==>
            var original := l.entries[id];
            && o.result == (if original.status == POSTED && MonthStatus(l, original.entity, now) == OPEN
                            then Ok(|l.entries|) else Err(Conflict))
            && (o.result.Err? ==> o.ledger == l)
            && (o.result.Ok? ==>
                  && |o.ledger.entries| == |l.entries| + 1
                  && (forall i :: 0 <= i < |l.entries| && i != id ==> o.ledger.entries[i] == l.entries[i])
                  && o.ledger.entries[id] == original.(status := REVERSED)
                  && var e := o.ledger.entries[|l.entries|];
                  && e.entity == original.entity && e.entryDate == now && e.status == POSTED
                  && e.period == PeriodKey(original.entity, now.year, now.month)
                  && e.createdBy == user && e.approvedBy == Some(user) && e.reversalOf == Some(id)
                  && SidesExchanged(original.lines, e.lines)
                  && MonthAdded(l, o.ledger, original.entity, now)
                  && NumberTaken(l, o.ledger, original.entity, now, e.number)))
  {
  }

  // ---- Locking ----

  /** lockPeriod: a known period is locked exactly when each of its entries is POSTED, REVERSED or REJECTED. */
  lemma LockRows(l: Ledger, key: PeriodKey)
    ensures
      var o := LockPeriod(l, key);
      var settled := forall i :: 0 <= i < |l.entries| && l.entries[i].period == key ==>
                       l.entries[i].status in {POSTED, REVERSED, REJECTED};
      && o.result == (if key !in l.periods then Err(NotFound) else if settled then Ok(0) else Err(Conflict))
      && o.ledger == if o.result.Ok? then Ledger(l.entries, l.periods[key := LOCKED], l.counters) else l
  {
  }
}
