/** What each call of a reconciliation session accepts, and the rows it leaves, column by column. */
module SessionRows {
  import opened Money
  import opened Calendar
  import opened Ledger
  import opened Matching
  import opened BankReconciliation
  import opened ReconciliationRuns
  import opened EngineRows

  // ---- Statements and sessions ----

  /** importStatement: refused for an inactive bank account; otherwise the statement holds the new lines, each with its
      date and its amount in cents, and unmatched. */
  lemma ImportRows(r: Recon, active: set<nat>, entity: EntityId, bankAccount: nat, id: StatementId, ids: seq<LineId>,
                   items: seq<ItemInput>)
    requires |ids| == |items| && forall j, k :: 0 <= j < k < |ids| ==> ids[j] != ids[k]
    ensures
      var o := Imported(r, active, entity, bankAccount, id, ids, items);
      && o.result == (if bankAccount in active then Ok(id) else Err(NotFound))
      && (o.result.Err? ==> o.recon == r)
      && (o.result.Ok? ==>
            && o.recon.ledger == r.ledger && o.recon.sessions == r.sessions && o.recon.matches == r.matches
            && o.recon.statements == r.statements[id := Statement(entity, bankAccount, ids)]
            && (forall line :: line in o.recon.lines <==> line in r.lines || line in ids)
            && (forall line :: line in r.lines && line !in ids ==> o.recon.lines[line] == r.lines[line])
            && (forall k :: 0 <= k < |ids| ==>
                  o.recon.lines[ids[k]] == StatementLine(id, items[k].date, Store(items[k].amount), false)))
  {
    forall line
      ensures line in ImportedLines(r.lines, id, ids, items) <==> line in r.lines || line in ids
      ensures line in r.lines && line !in ids ==> ImportedLines(r.lines, id, ids, items)[line] == r.lines[line]
    {
      ImportedLine(r.lines, id, ids, items, line);
    }
    forall k | 0 <= k < |ids|
      ensures ids[k] in ImportedLines(r.lines, id, ids, items)
      ensures ImportedLines(r.lines, id, ids, items)[ids[k]]
              == StatementLine(id, items[k].date, Store(items[k].amount), false)
    {
      ImportedRow(r.lines, id, ids, items, k);
    }
    hide ImportedLines;
  }

  lemma {:induction false} ImportedRow(lines: map<LineId, StatementLine>, id: StatementId, ids: seq<LineId>,
                                       items: seq<ItemInput>, k: nat)
    requires |ids| == |items| && k < |ids| && forall i, j :: 0 <= i < j < |ids| ==> ids[i] != ids[j]
    ensures ids[k] in ImportedLines(lines, id, ids, items)
    ensures ImportedLines(lines, id, ids, items)[ids[k]]
            == StatementLine(id, items[k].date, Store(items[k].amount), false)
    decreases |ids|
  {
    var next := lines[ids[0] := StatementLine(id, items[0].date, Store(items[0].amount), false)];
    if k == 0 {
      ImportedLine(next, id, ids[1..], items[1..], ids[0]);
    } else {
      ImportedRow(next, id, ids[1..], items[1..], k - 1);
    }
  }

  /** createSession: a DRAFT session on a statement of the same bank account and entity. */
  lemma SessionStarts(r: Recon, id: SessionId, s: Session, user: UserId)
    ensures
      var o := Started(r, id, s, user);
      && o.result == (if s.statement !in r.statements then Err(NotFound)
                      else if r.statements[s.statement].bankAccount == s.bankAccount
                           && r.statements[s.statement].entity == s.entity then Ok(id)
                      else Err(BadRequest))
      && o.recon == if o.result.Err? then r
                    else r.(sessions := r.sessions[id := Session(s.entity, s.bankAccount, s.statement, s.bankGl,
                                                                 SessionStatus.DRAFT, user)])
  {
  }

  // ---- The automatic match ----

  /** A posted journal line of the session's account and entity that no match of the session names. */
  predicate Candidate(r: Recon, id: SessionId, entry: EntryId, index: nat)
    requires id in r.sessions
  {
    && entry < |r.ledger.entries| && index < |r.ledger.entries[entry].lines|
    && r.ledger.entries[entry].status == POSTED && r.ledger.entries[entry].entity == r.sessions[id].entity
    && r.ledger.entries[entry].lines[index].account == r.sessions[id].bankGl
    && forall i :: 0 <= i < |r.matches| && r.matches[i].session == id ==> r.matches[i].book != LineRef(entry, index)
  }

  /** No more than five days apart; a deposit meets the debit to a cent, anything else the credit. */
  predicate Meets(row: StatementLine, e: Entry, line: Line) {
    && -432_000_000 <= Time(row.date) - Time(e.entryDate) <= 432_000_000
    && (row.amount > 0 ==> -1 <= line.debit - row.amount <= 1)
    && (row.amount <= 0 ==> -1 <= line.credit + row.amount <= 1)
  }

  lemma CompatibleMeets(r: Recon, row: StatementLine, id: LineId, ref: LineRef)
    requires ValidRef(r.ledger, ref)
    ensures Compatible(ItemOf(id, row), BookItemOf(r.ledger, ref))
            <==> Meets(row, r.ledger.entries[ref.entry], r.ledger.entries[ref.entry].lines[ref.index])
  {
    hide Time;
  }

  lemma CandidateIsAvailable(r: Recon, id: SessionId, entry: EntryId, index: nat)
    requires id in r.sessions
    ensures Candidate(r, id, entry, index) <==> Available(r, id, LineRef(entry, index))
  {
  }

  /** The record of a pair, made of the stored rows that it joins. */
  predicate JoinsRows(r: Recon, id: SessionId, m: Match)
    requires id in r.sessions
  {
    && m.session == id && m.kind == AUTO && m.line in r.lines
    && r.lines[m.line].statement == r.sessions[id].statement && !r.lines[m.line].isMatched
    && m.amount == (if r.lines[m.line].amount > 0 then r.lines[m.line].amount else -r.lines[m.line].amount)
    && Candidate(r, id, m.book.entry, m.book.index)
    && Meets(r.lines[m.line], r.ledger.entries[m.book.entry], r.ledger.entries[m.book.entry].lines[m.book.index])
  }

  lemma PairJoinsRows(r: Recon, id: SessionId, unmatched: seq<StatementItem>, candidates: seq<BookItem>, p: Pair)
    requires id in r.sessions && Queried(r, id, unmatched, candidates)
    requires p.statement in unmatched && p.book in candidates && Compatible(p.statement, p.book)
    ensures JoinsRows(r, id, AutoMatchOf(id, p))
  {
    var ref := p.book.ref;
    assert Open(r, id, p.statement.id) && Available(r, id, ref);
    CandidateIsAvailable(r, id, ref.entry, ref.index);
    assert LineRef(ref.entry, ref.index) == ref;
    CompatibleMeets(r, r.lines[p.statement.id], p.statement.id, ref);
    hide Compatible, Meets, Candidate, Queried;
  }

  predicate HasLine(pairs: seq<Pair>, line: LineId) {
    exists p :: p in pairs && p.statement.id == line
  }

  lemma HasLineFirst(pairs: seq<Pair>, line: LineId)
    requires pairs != []
    ensures HasLine(pairs, line) <==> pairs[0].statement.id == line || HasLine(pairs[1..], line)
  {
    assert pairs == [pairs[0]] + pairs[1..];
  }

  lemma {:induction false} RecordAllRows(r: Recon, session: SessionId, pairs: seq<Pair>, line: LineId)
    requires forall p :: p in pairs ==> p.statement.id in r.lines
    ensures
      var after := RecordAll(r, session, pairs);
      && |after.matches| == |r.matches| + |pairs| && after.matches[..|r.matches|] == r.matches
      && (forall k :: 0 <= k < |pairs| ==> after.matches[|r.matches| + k] == AutoMatchOf(session, pairs[k]))
      && after.ledger == r.ledger && after.statements == r.statements && after.sessions == r.sessions
      && (line in after.lines <==> line in r.lines)
      && (line in r.lines ==>
            after.lines[line] == r.lines[line].(isMatched := r.lines[line].isMatched || HasLine(pairs, line)))
    decreases |pairs|
  {
    hide HasLine;
    if pairs != [] {
      var m := AutoMatchOf(session, pairs[0]);
      RecordAllRows(Recorded(r, m), session, pairs[1..], line);
      HasLineFirst(pairs, line);
    } else {
      NoLine(line);
    }
  }

  lemma NoLine(line: LineId)
    ensures !HasLine([], line)
  {
  }

  lemma LeftOverMeetsNothing(r: Recon, id: SessionId, unmatched: seq<StatementItem>, candidates: seq<BookItem>,
                             line: LineId, entry: EntryId, index: nat)
    requires id in r.sessions && Queried(r, id, unmatched, candidates)
    requires line in r.lines && r.lines[line].statement == r.sessions[id].statement && !r.lines[line].isMatched
    requires Candidate(r, id, entry, index)
    requires Meets(r.lines[line], r.ledger.entries[entry], r.ledger.entries[entry].lines[index])
    ensures exists p :: p in Greedy(unmatched, candidates)
                        && (p.statement.id == line || p.book.ref == LineRef(entry, index))
  {
    var ref := LineRef(entry, index);
    CandidateIsAvailable(r, id, entry, index);
    assert Open(r, id, line) && Available(r, id, ref);
    CompatibleMeets(r, r.lines[line], line, ref);
    var s, b := ItemOf(line, r.lines[line]), BookItemOf(r.ledger, ref);
    GreedyIsMaximal(unmatched, candidates, s, b);
    var pairs := Greedy(unmatched, candidates);
    if UsesStatement(pairs, s) {
      var k :| 0 <= k < |pairs| && pairs[k].statement == s;
      assert pairs[k] in pairs && pairs[k].statement.id == line;
    } else {
      var k :| 0 <= k < |pairs| && pairs[k].book == b;
      assert pairs[k] in pairs && pairs[k].book.ref == ref;
    }
  }

  /** The records from n on name the line. */
  predicate NewlyNamed(matches: seq<Match>, n: nat, line: LineId) {
    exists k :: n <= k < |matches| && matches[k].line == line
  }

  /** after is r with records for these pairs, and their lines matched. */
  predicate Records(r: Recon, id: SessionId, pairs: seq<Pair>, after: Recon) {
    var n := |r.matches|;
    && |after.matches| == n + |pairs| && after.matches[..n] == r.matches
    && (forall k :: 0 <= k < |pairs| ==> after.matches[n + k] == AutoMatchOf(id, pairs[k]))
    && after.ledger == r.ledger && after.statements == r.statements && after.sessions == r.sessions
    && after.lines.Keys == r.lines.Keys
    && (forall line :: line in r.lines ==>
          after.lines[line]
          == r.lines[line].(isMatched := r.lines[line].isMatched || NewlyNamed(after.matches, n, line)))
  }

  lemma RecordedRows(r: Recon, id: SessionId, pairs: seq<Pair>)
    requires forall p :: p in pairs ==> p.statement.id in r.lines
    ensures Records(r, id, pairs, RecordAll(r, id, pairs))
  {
    hide RecordAll, HasLine, NewlyNamed;
    var after, n := RecordAll(r, id, pairs), |r.matches|;
    RecordAllRows(r, id, pairs, 0);
    forall line
      ensures line in after.lines <==> line in r.lines
      ensures line in r.lines ==>
                after.lines[line]
                == r.lines[line].(isMatched := r.lines[line].isMatched || NewlyNamed(after.matches, n, line))
    {
      RecordAllRows(r, id, pairs, line);
      PairOfLine(pairs, after.matches, n, id, line);
    }
  }

  lemma PairOfLine(pairs: seq<Pair>, matches: seq<Match>, n: nat, id: SessionId, line: LineId)
    requires |matches| == n + |pairs| && forall k :: 0 <= k < |pairs| ==> matches[n + k] == AutoMatchOf(id, pairs[k])
    ensures HasLine(pairs, line) <==> NewlyNamed(matches, n, line)
  {
    if HasLine(pairs, line) {
      var p :| p in pairs && p.statement.id == line;
      var k :| 0 <= k < |pairs| && pairs[k] == p;
      assert matches[n + k].line == line;
    }
    if NewlyNamed(matches, n, line) {
      var k :| n <= k < |matches| && matches[k].line == line;
      assert matches[n + (k - n)] == AutoMatchOf(id, pairs[k - n]) && pairs[k - n] in pairs;
    }
  }

  lemma StillNoCandidate(r: Recon, id: SessionId, unmatched: seq<StatementItem>, candidates: seq<BookItem>,
                         after: Recon, line: LineId, entry: EntryId, index: nat)
    requires id in r.sessions && Queried(r, id, unmatched, candidates) && line in r.lines
    requires Records(r, id, Greedy(unmatched, candidates), after)
    requires after.lines[line].statement == r.sessions[id].statement && !after.lines[line].isMatched
    requires Candidate(after, id, entry, index)
    ensures !Meets(after.lines[line], after.ledger.entries[entry], after.ledger.entries[entry].lines[index])
  {
    var pairs, n, ref := Greedy(unmatched, candidates), |r.matches|, LineRef(entry, index);
    hide Greedy, Queried, Meets;
    assert Candidate(r, id, entry, index) by {
      assert forall i :: 0 <= i < n ==> after.matches[i] == r.matches[i];
    }
    forall p | p in pairs
      ensures p.statement.id != line && p.book.ref != ref
    {
      var k :| 0 <= k < |pairs| && pairs[k] == p;
      assert after.matches[n + k] == AutoMatchOf(id, p);
    }
    if Meets(r.lines[line], r.ledger.entries[entry], r.ledger.entries[entry].lines[index]) {
      LeftOverMeetsNothing(r, id, unmatched, candidates, line, entry, index);
    }
    assert after.lines[line] == r.lines[line];
  }

  /** No open line of the session's statement meets a journal line that its matches leave over. */
  ghost predicate NothingLeft(r: Recon, id: SessionId)
    requires id in r.sessions
  {
    forall line, entry: EntryId, index: nat ::
      line in r.lines && r.lines[line].statement == r.sessions[id].statement && !r.lines[line].isMatched
      && Candidate(r, id, entry, index) ==>
        !Meets(r.lines[line], r.ledger.entries[entry], r.ledger.entries[entry].lines[index])
  }

  /** From record n on, each record joins two rows that meet, each at most once; their lines and no others become
      matched. */
  predicate MatchesRows(r: Recon, id: SessionId, after: Recon)
    requires id in r.sessions
  {
    var n := |r.matches|;
    && n <= |after.matches| && after.matches[..n] == r.matches
    && after.ledger == r.ledger && after.statements == r.statements && after.sessions == r.sessions
    && (forall k :: n <= k < |after.matches| ==> JoinsRows(r, id, after.matches[k]))
    && (forall j, k :: n <= j < k < |after.matches| ==>
          after.matches[j].line != after.matches[k].line && after.matches[j].book != after.matches[k].book)
    && after.lines.Keys == r.lines.Keys
    && (forall line :: line in r.lines ==>
          after.lines[line]
          == r.lines[line].(isMatched := r.lines[line].isMatched || NewlyNamed(after.matches, n, line)))
  }

  lemma GreedyJoinsRows(r: Recon, id: SessionId, unmatched: seq<StatementItem>, candidates: seq<BookItem>, p: Pair)
    requires id in r.sessions && Queried(r, id, unmatched, candidates) && p in Greedy(unmatched, candidates)
    ensures JoinsRows(r, id, AutoMatchOf(id, p))
  {
    hide Greedy, Queried, JoinsRows;
    GreedyDrawsFrom(unmatched, candidates);
    PairJoinsRows(r, id, unmatched, candidates, p);
  }

  /** The records of these pairs join rows that meet, and no two of them share a row. */
  predicate PairsJoinRows(r: Recon, id: SessionId, pairs: seq<Pair>)
    requires id in r.sessions
  {
    && (forall k :: 0 <= k < |pairs| ==> JoinsRows(r, id, AutoMatchOf(id, pairs[k])))
    && (forall j, k :: 0 <= j < k < |pairs| ==>
          pairs[j].statement.id != pairs[k].statement.id && pairs[j].book.ref != pairs[k].book.ref)
  }

  lemma GreedyPairsJoinRows(r: Recon, id: SessionId, unmatched: seq<StatementItem>, candidates: seq<BookItem>)
    requires id in r.sessions && Queried(r, id, unmatched, candidates)
    ensures PairsJoinRows(r, id, Greedy(unmatched, candidates))
  {
    hide Greedy, Queried, JoinsRows, OpenPair, AutoMatchOf;
    var pairs := Greedy(unmatched, candidates);
    GreedyRecordable(r, id, unmatched, candidates);
    forall k | 0 <= k < |pairs|
      ensures JoinsRows(r, id, AutoMatchOf(id, pairs[k]))
    {
      GreedyJoinsRows(r, id, unmatched, candidates, pairs[k]);
    }
  }

  lemma RecordsMatchRows(r: Recon, id: SessionId, pairs: seq<Pair>, after: Recon)
    requires id in r.sessions && Records(r, id, pairs, after) && PairsJoinRows(r, id, pairs)
    ensures MatchesRows(r, id, after) && |after.matches| == |r.matches| + |pairs|
  {
    hide JoinsRows, NewlyNamed;
    var n := |r.matches|;
    forall k | n <= k < |after.matches|
      ensures after.matches[k] == AutoMatchOf(id, pairs[k - n])
    {
      assert after.matches[n + (k - n)] == AutoMatchOf(id, pairs[k - n]);
    }
  }

  lemma RecordsLeaveNothing(r: Recon, id: SessionId, unmatched: seq<StatementItem>, candidates: seq<BookItem>,
                            after: Recon)
    requires id in r.sessions && Queried(r, id, unmatched, candidates)
    requires Records(r, id, Greedy(unmatched, candidates), after)
    ensures id in after.sessions && NothingLeft(after, id)
  {
    assert after.sessions == r.sessions && after.lines.Keys == r.lines.Keys;
    hide Greedy, Queried, Meets, Candidate, Records;
    forall line, entry: EntryId, index: nat |
      line in after.lines && after.lines[line].statement == after.sessions[id].statement
      && !after.lines[line].isMatched && Candidate(after, id, entry, index)
      ensures !Meets(after.lines[line], after.ledger.entries[entry], after.ledger.entries[entry].lines[index])
    {
      assert line in after.lines.Keys;
      StillNoCandidate(r, id, unmatched, candidates, after, line, entry, index);
    }
  }

  /** autoMatch of a draft session joins rows that meet, reports how many, and leaves none that meet. */
  lemma AutoMatchRows(r: Recon, id: SessionId, unmatched: seq<StatementItem>, candidates: seq<BookItem>)
    requires id in r.sessions && Queried(r, id, unmatched, candidates) && forall s :: s in unmatched ==> s.id in r.lines
    ensures
      var o := AutoMatched(r, id, unmatched, candidates);
      && (r.sessions[id].status != SessionStatus.DRAFT ==> o == ReconOutcome(r, Err(Conflict)))
      && (r.sessions[id].status == SessionStatus.DRAFT ==>
            && MatchesRows(r, id, o.recon) && o.result == Ok(|o.recon.matches| - |r.matches|)
            && id in o.recon.sessions && NothingLeft(o.recon, id))
  {
    hide Greedy, Queried, RecordAll, MatchesRows, NothingLeft, PairsJoinRows, Records;
    if r.sessions[id].status == SessionStatus.DRAFT {
      GreedyDrawsFrom(unmatched, candidates);
      RecordedRows(r, id, Greedy(unmatched, candidates));
      GreedyPairsJoinRows(r, id, unmatched, candidates);
      RecordsMatchRows(r, id, Greedy(unmatched, candidates), AutoMatched(r, id, unmatched, candidates).recon);
      RecordsLeaveNothing(r, id, unmatched, candidates, AutoMatched(r, id, unmatched, candidates).recon);
    }
  }

  // ---- Matches by hand, adjustments and sign-off ----

  /** Why manualMatch and recordAdjustment refuse a line before they look at the books. */
  function Refusal(r: Recon, id: SessionId, line: LineId): Option<Error> {
    if id !in r.sessions then Some(NotFound)
    else if r.sessions[id].status != SessionStatus.DRAFT then Some(Conflict)
    else if line !in r.lines || r.lines[line].statement != r.sessions[id].statement then Some(NotFound)
    else if r.lines[line].isMatched then Some(Conflict)
    else None
  }

  /** One record is added, and its line becomes matched. */
  predicate OneRecorded(r: Recon, after: Recon, m: Match) {
    && m.line in r.lines
    && after.statements == r.statements && after.sessions == r.sessions && after.matches == r.matches + [m]
    && after.lines == r.lines[m.line := r.lines[m.line].(isMatched := true)]
  }

  function Size(amount: int): int {
    if amount < 0 then -amount else amount
  }

  /** manualMatch: any journal line that is there, whatever it is worth. */
  lemma ManualRows(r: Recon, id: SessionId, line: LineId, entry: EntryId, index: nat)
    ensures
      var o, refusal := ManuallyMatched(r, id, line, LineRef(entry, index)), Refusal(r, id, line);
      var there := entry < |r.ledger.entries| && index < |r.ledger.entries[entry].lines|;
      && o.result == (if refusal.Some? then Err(refusal.value) else if there then Ok(line) else Err(NotFound))
      && (o.result.Err? ==> o.recon == r)
      && (o.result.Ok? ==>
            && o.recon.ledger == r.ledger
            && OneRecorded(r, o.recon, Match(id, line, LineRef(entry, index), MANUAL, Size(r.lines[line].amount))))
  {
  }

  /** The bank account is debited for a deposit and credited for anything else, the contra account the other way
      round. */
  function AdjustmentEntry(s: Session, contra: AccountId, amount: int): seq<Line> {
    if amount > 0 then [Line(s.bankGl, amount, 0, s.entity, NOWHERE), Line(contra, 0, amount, s.entity, NOWHERE)]
    else [Line(s.bankGl, 0, -amount, s.entity, NOWHERE), Line(contra, -amount, 0, s.entity, NOWHERE)]
  }

  lemma AdjustmentEntryStored(s: Session, contra: AccountId, amount: int)
    ensures StoreLines(s.entity, AdjustmentLines(s.bankGl, contra, amount)) == AdjustmentEntry(s, contra, amount)
  {
    StoreWhole(IntAbs(amount));
    StoreWhole(0);
    hide Store;
  }

  lemma AdjustmentAnswered(l: Ledger, master: Master, s: Session, row: StatementLine, contra: AccountId, user: UserId)
    ensures
      var input := EntryInput(s.entity, row.date, AdjustmentLines(s.bankGl, contra, row.amount));
      PostSystem(l, master, input, user).result
      == TransferAnswer(l, master, s.entity, row.date, s.bankGl, contra, Size(row.amount))
  {
    hide PostSystem, TransferAnswer;
    TransferAnswered(l, master, EntryInput(s.entity, row.date, AdjustmentLines(s.bankGl, contra, row.amount)), user,
                     Size(row.amount));
  }

  /** What an adjustment of the line comes to when the session and the line do not refuse it: interest is only for a
      deposit and charges only for anything else; then the engine decides. */
  function AdjustmentAnswer(r: Recon, master: Master, id: SessionId, line: LineId, kind: AdjustmentType,
                            contra: AccountId): Result<nat>
    requires id in r.sessions && line in r.lines
  {
    var s, row := r.sessions[id], r.lines[line];
    if (kind == INTEREST_INCOME) != (row.amount > 0) then Err(BadRequest)
    else
      match TransferAnswer(r.ledger, master, s.entity, row.date, s.bankGl, contra, Size(row.amount))
      case Err(e) => Err(e)
      case Ok(_) => Ok(line)
  }

  /** recordAdjustment: the entry is dated like the statement line, and the line is matched to that line of the entry on
      the bank account that the database lists first. */
  lemma AdjustmentRows(r: Recon, master: Master, id: SessionId, line: LineId, kind: AdjustmentType, contra: AccountId,
                       user: UserId, contraFirst: bool)
    ensures
      var o, refusal := Adjusted(r, master, id, line, kind, contra, user, contraFirst), Refusal(r, id, line);
      && o.result == (if refusal.Some? then Err(refusal.value) else AdjustmentAnswer(r, master, id, line, kind, contra))
      && (o.result.Err? ==> o.recon == r)
      && (o.result.Ok? ==>
            && refusal.None?
            && var s, row := r.sessions[id], r.lines[line];
            && EntryAdded(r.ledger, o.recon.ledger, s.entity, row.date, user, AdjustmentEntry(s, contra, row.amount))
            && var index := if contra == s.bankGl && contraFirst then 1 else 0;
               var book := LineRef(|r.ledger.entries|, index);
               OneRecorded(r, o.recon, Match(id, line, book, ADJUSTMENT, Size(row.amount))))
  {
    hide PostSystem, AdjustmentLines, AdjustmentEntry, StoreLines, TransferAnswer, EntryAdded;
    if id in r.sessions && line in r.lines {
      var s, row := r.sessions[id], r.lines[line];
      AdjustmentEntryStored(s, contra, row.amount);
      AdjustmentAnswered(r.ledger, master, s, row, contra, user);
      SystemEntryAdds(r.ledger, master, EntryInput(s.entity, row.date, AdjustmentLines(s.bankGl, contra, row.amount)),
                      user);
    }
  }

  /** approveSession: by somebody else than who started it, exactly when each line of the statement is matched. */
  lemma ApprovalRows(r: Recon, id: SessionId, user: UserId)
    requires id in r.sessions && r.sessions[id].statement in r.statements
    ensures
      var o, s := Approved(r, id, user), r.sessions[id];
      var complete := forall k :: 0 <= k < |r.statements[s.statement].lines| ==>
                        var line := r.statements[s.statement].lines[k]; line in r.lines && r.lines[line].isMatched;
      && o.result == (if s.status != SessionStatus.DRAFT then Err(Conflict)
                      else if s.createdBy == user || !complete then Err(BadRequest) else Ok(id))
      && o.recon == if o.result.Err? then r
                    else r.(sessions := r.sessions[id := s.(status := SessionStatus.APPROVED)])
  {
    var lines := r.statements[r.sessions[id].statement].lines;
    assert forall k :: 0 <= k < |lines| ==> lines[k] in lines;
  }

  /** A session that is not there is neither matched nor approved. */
  lemma NoSession(r: Recon, id: SessionId, unmatched: seq<StatementItem>, candidates: seq<BookItem>, user: UserId)
    requires id !in r.sessions && forall s :: s in unmatched ==> s.id in r.lines
    ensures AutoMatched(r, id, unmatched, candidates) == Approved(r, id, user) == ReconOutcome(r, Err(NotFound))
  {
  }
}
