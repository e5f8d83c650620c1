/** The posting engine: journal, periods and counters changed step by step.
Each method is proved to do what the Ledger operation of the same name says. */
module PostingEngine {
  import opened Money
  import opened Sums
  import opened Calendar
  import opened Journal = Ledger

  class Engine {
    var entries: seq<Entry>
    var periods: map<PeriodKey, PeriodStatus>
    var counters: map<(EntityId, int), nat>

    function Books(): Ledger
      reads this
    {
      Ledger(entries, periods, counters)
    }

    constructor ()
      ensures Books() == EMPTY
    {
      entries, periods, counters := [], map[], map[];
    }

    // ---- Checks ----

    method AssertNoZeroLines(lines: seq<LineInput>) returns (passed: bool)
      ensures passed <==> NoZeroLines(lines)
    {
      for i := 0 to |lines|
        invariant forall k :: 0 <= k < i ==> OneSided(lines[k])
      {
        var line := lines[i];
        if line.debit > 0.0 && line.credit > 0.0 {
          assert line in lines && !OneSided(line);
          return false;
        }
        if line.debit == 0.0 && line.credit == 0.0 {
          assert line in lines && !OneSided(line);
          return false;
        }
      }
      return true;
    }

    method AssertLinesPostable(master: Master, entity: EntityId, lines: seq<LineInput>) returns (passed: bool)
      ensures passed <==> LinesPostable(master, entity, lines)
    {
      for i := 0 to |lines|
        invariant forall k :: 0 <= k < i ==> (entity, lines[k].account) in master.postable
      {
        if (entity, lines[i].account) !in master.postable {
          assert lines[i] in lines;
          return false;
        }
      }
      return true;
    }

    method GetOrCreateFiscalPeriod(entity: EntityId, date: Date) returns (status: PeriodStatus)
      modifies this`periods
      ensures periods == WithPeriod(old(periods), PeriodOf(entity, date))
      ensures status == periods[PeriodOf(entity, date)]
    {
      var key := PeriodOf(entity, date);
      if key !in periods {
        periods := periods[key := OPEN];
      }
      status := periods[key];
    }

    /** INSERT ... ON CONFLICT DO UPDATE ... RETURNING lastNumber. */
    method NextNumber(entity: EntityId, year: int) returns (number: nat)
      modifies this`counters
      ensures number == Counter(old(Books()), entity, year) + 1
      ensures counters == old(counters)[(entity, year) := number]
    {
      number := if (entity, year) in counters then counters[(entity, year)] + 1 else 1;
      counters := counters[(entity, year) := number];
    }

    // ---- Drafts and their review ----

    method CreateDraft(master: Master, input: EntryInput, user: UserId) returns (result: Result<EntryId>)
      modifies this`entries, this`periods
      ensures Outcome(Books(), result) == Journal.CreateDraft(old(Books()), master, input, user)
    {
      if !Balanced(input.lines) {
        return Err(BadRequest);
      }
      var passed := AssertNoZeroLines(input.lines);
      if !passed {
        return Err(BadRequest);
      }
      if input.entity !in master.activeEntities {
        return Err(NotFound);
      }
      var status := GetOrCreateFiscalPeriod(input.entity, input.entryDate);
      if status == LOCKED {
        return Err(Conflict);
      }
      passed := AssertLinesPostable(master, input.entity, input.lines);
      if !passed {
        return Err(BadRequest);
      }
      var draft := Entry(input.entity, PeriodOf(input.entity, input.entryDate), input.entryDate, DRAFT, Unnumbered,
                         StoreLines(input.entity, input.lines), user, None, None);
      entries := entries + [draft];
      return Ok(|entries| - 1);
    }

    method SubmitForApproval(id: EntryId) returns (result: Result<EntryId>)
      modifies this`entries
      ensures Outcome(Books(), result) == Submit(old(Books()), id)
    {
      if id >= |entries| {
        return Err(NotFound);
      }
      if entries[id].status != DRAFT {
        return Err(Conflict);
      }
      entries := entries[id := entries[id].(status := PENDING_APPROVAL)];
      return Ok(id);
    }

    method Approve(id: EntryId, approver: UserId) returns (result: Result<EntryId>)
      modifies this`entries
      ensures Outcome(Books(), result) == Journal.Approve(old(Books()), id, approver)
    {
      if id >= |entries| {
        return Err(NotFound);
      }
      if entries[id].status != PENDING_APPROVAL {
        return Err(Conflict);
      }
      if entries[id].createdBy == approver {
        return Err(BadRequest);
      }
      entries := entries[id := entries[id].(status := APPROVED, approvedBy := Some(approver))];
      return Ok(id);
    }

    method Reject(id: EntryId) returns (result: Result<EntryId>)
      modifies this`entries
      ensures Outcome(Books(), result) == Journal.Reject(old(Books()), id)
    {
      if id >= |entries| {
        return Err(NotFound);
      }
      if entries[id].status != PENDING_APPROVAL {
        return Err(Conflict);
      }
      entries := entries[id := entries[id].(status := REJECTED)];
      return Ok(id);
    }

    // ---- Entering the books ----

    method Post(id: EntryId) returns (result: Result<EntryId>)
      modifies this`entries, this`counters
      ensures Outcome(Books(), result) == Journal.Post(old(Books()), id)
    {
      if id >= |entries| {
        return Err(NotFound);
      }
      var entry := entries[id];
      if entry.status != APPROVED {
        return Err(Conflict);
      }
      if entry.period !in periods || periods[entry.period] != OPEN {
        return Err(Conflict);
      }
      var totalDebit, totalCredit := Sum(entry.lines, DebitOf), Sum(entry.lines, CreditOf);
      if Abs((totalDebit - totalCredit) as real) > TOLERANCE {
        return Err(BadRequest);
      }
      var fiscalYear := entry.entryDate.year;
      var number := NextNumber(entry.entity, fiscalYear);
      entries := entries[id := entry.(status := POSTED, number := Numbered(fiscalYear, number))];
      return Ok(id);
    }

    method Reverse(id: EntryId, user: UserId, now: Date) returns (result: Result<EntryId>)
      modifies this`entries, this`periods, this`counters
      ensures Outcome(Books(), result) == Journal.Reverse(old(Books()), id, user, now)
    {
      if id >= |entries| {
        return Err(NotFound);
      }
      var original := entries[id];
      if original.status != POSTED {
        return Err(Conflict);
      }
      var status := GetOrCreateFiscalPeriod(original.entity, now);
      if status != OPEN {
        return Err(Conflict);
      }
      var reversal := Entry(original.entity, PeriodOf(original.entity, now), now, APPROVED, Unnumbered,
                            SwappedLines(original.lines), user, Some(user), Some(id));
      entries := entries + [reversal];
      var number := NextNumber(original.entity, now.year);
      var last := |entries| - 1;
      entries := entries[last := reversal.(status := POSTED, number := Numbered(now.year, number))];
      entries := entries[id := original.(status := REVERSED)];
      return Ok(last);
    }

    method PostSystemEntry(master: Master, input: EntryInput, user: UserId) returns (result: Result<EntryId>)
      modifies this`entries, this`periods, this`counters
      ensures Outcome(Books(), result) == PostSystem(old(Books()), master, input, user)
    {
      if !Balanced(input.lines) {
        return Err(BadRequest);
      }
      var passed := AssertNoZeroLines(input.lines);
      if !passed {
        return Err(BadRequest);
      }
      if input.entity !in master.activeEntities {
        return Err(NotFound);
      }
      var before := periods;
      var status := GetOrCreateFiscalPeriod(input.entity, input.entryDate);
      if status != OPEN {
        return Err(Conflict);
      }
      passed := AssertLinesPostable(master, input.entity, input.lines);
      if !passed {
        periods := before; // the transaction is rolled back
        return Err(BadRequest);
      }
      var year := input.entryDate.year;
      var number := NextNumber(input.entity, year);
      var posted := Entry(input.entity, PeriodOf(input.entity, input.entryDate), input.entryDate, POSTED,
                          Numbered(year, number), StoreLines(input.entity, input.lines), user, Some(user), None);
      entries := entries + [posted];
      return Ok(|entries| - 1);
    }

    // ---- Locking ----

    method LockPeriod(key: PeriodKey) returns (result: Result<EntryId>)
      modifies this`periods
      ensures Outcome(Books(), result) == Journal.LockPeriod(old(Books()), key)
    {
      if key !in periods {
        return Err(NotFound);
      }
      for i := 0 to |entries|
        invariant forall k :: 0 <= k < i ==> !(entries[k].period == key && Unresolved(entries[k]))
      {
        if entries[i].period == key && Unresolved(entries[i]) {
          return Err(Conflict);
        }
      }
      periods := periods[key := LOCKED];
      return Ok(0);
    }
  }
}
