/** Reconciliation sessions: statements, matches and adjustments over a posting engine. */
module BankReconciliation {
  import opened Money
  import opened Calendar
  import opened Ledger
  import opened Matching
  import opened PostingEngine

  type StatementId = nat
  type LineId = nat
  type SessionId = nat

  datatype SessionStatus = DRAFT | APPROVED

  datatype MatchType = AUTO | MANUAL | ADJUSTMENT

  datatype StatementLine = StatementLine(statement: StatementId, date: Date, amount: int, isMatched: bool)

  datatype Statement = Statement(entity: EntityId, bankAccount: nat, lines: seq<LineId>)

  datatype Session = Session(
    entity: EntityId, bankAccount: nat, statement: StatementId, bankGl: AccountId, status: SessionStatus,
    createdBy: UserId)

  datatype Match = Match(session: SessionId, line: LineId, book: LineRef, kind: MatchType, amount: int)

  datatype Recon = Recon(
    ledger: Ledger, statements: map<StatementId, Statement>, lines: map<LineId, StatementLine>,
    sessions: map<SessionId, Session>, matches: seq<Match>)

  datatype ReconOutcome = ReconOutcome(recon: Recon, result: Result<nat>)

  // ---- Statements and sessions ----

  datatype ItemInput = ItemInput(date: Date, amount: real)

  function ImportedLines(lines: map<LineId, StatementLine>, id: StatementId, ids: seq<LineId>,
                         items: seq<ItemInput>): map<LineId, StatementLine>
    requires |ids| == |items|
    decreases |ids|
  {
    if ids == [] then lines
    else ImportedLines(lines[ids[0] := StatementLine(id, items[0].date, Store(items[0].amount), false)], id, ids[1..],
                       items[1..])
  }

  /** id and ids are the identifiers the database draws for the statement and its lines. */
  function Imported(r: Recon, activeBankAccounts: set<nat>, entity: EntityId, bankAccount: nat,
                           id: StatementId, ids: seq<LineId>, items: seq<ItemInput>): ReconOutcome
    requires |ids| == |items|
  {
    if bankAccount !in activeBankAccounts then ReconOutcome(r, Err(NotFound))
    else
      ReconOutcome(r.(statements := r.statements[id := Statement(entity, bankAccount, ids)],
                      lines := ImportedLines(r.lines, id, ids, items)), Ok(id))
  }

  function Started(r: Recon, id: SessionId, s: Session, user: UserId): ReconOutcome {
    if s.statement !in r.statements then ReconOutcome(r, Err(NotFound))
    else if r.statements[s.statement].bankAccount != s.bankAccount || r.statements[s.statement].entity != s.entity then
      ReconOutcome(r, Err(BadRequest))
    else ReconOutcome(r.(sessions := r.sessions[id := s.(status := SessionStatus.DRAFT, createdBy := user)]), Ok(id))
  }

  // ---- Matching ----

  function ItemOf(id: LineId, line: StatementLine): StatementItem {
    StatementItem(id, Time(line.date), line.amount)
  }

  predicate ValidRef(l: Ledger, ref: LineRef) {
    ref.entry < |l.entries| && ref.index < |l.entries[ref.entry].lines|
  }

  function LineAt(l: Ledger, ref: LineRef): Line
    requires ValidRef(l, ref)
  {
    l.entries[ref.entry].lines[ref.index]
  }

  function BookItemOf(l: Ledger, ref: LineRef): BookItem
    requires ValidRef(l, ref)
  {
    BookItem(ref, Time(l.entries[ref.entry].entryDate), LineAt(l, ref).debit, LineAt(l, ref).credit)
  }

  predicate MatchedIn(r: Recon, session: SessionId, ref: LineRef) {
    exists i :: 0 <= i < |r.matches| && r.matches[i].session == session && r.matches[i].book == ref
  }

  /** A posted line on the session's bank account that the session has not matched yet. */
  predicate Available(r: Recon, id: SessionId, ref: LineRef)
    requires id in r.sessions
  {
    && ValidRef(r.ledger, ref)
    && LineAt(r.ledger, ref).account == r.sessions[id].bankGl
    && r.ledger.entries[ref.entry].entity == r.sessions[id].entity
    && r.ledger.entries[ref.entry].status == POSTED
    && !MatchedIn(r, id, ref)
  }

  predicate Open(r: Recon, id: SessionId, line: LineId)
    requires id in r.sessions
  {
    line in r.lines && r.lines[line].statement == r.sessions[id].statement && !r.lines[line].isMatched
  }

  /** unmatched and candidates are what the two queries return, in whatever order the database gives them. */
  ghost predicate Queried(r: Recon, id: SessionId, unmatched: seq<StatementItem>, candidates: seq<BookItem>) {
    id in r.sessions ==>
      && DistinctStatements(unmatched) && DistinctBooks(candidates)
      && (forall s :: s in unmatched ==> Open(r, id, s.id) && s == ItemOf(s.id, r.lines[s.id]))
      && (forall line :: Open(r, id, line) ==> ItemOf(line, r.lines[line]) in unmatched)
      && (forall b :: b in candidates ==> Available(r, id, b.ref) && b == BookItemOf(r.ledger, b.ref))
      && (forall ref :: Available(r, id, ref) ==> BookItemOf(r.ledger, ref) in candidates)
  }

  function Recorded(r: Recon, m: Match): Recon
    requires m.line in r.lines
  {
    r.(matches := r.matches + [m], lines := r.lines[m.line := r.lines[m.line].(isMatched := true)])
  }

  function AutoMatchOf(session: SessionId, p: Pair): Match {
    Match(session, p.statement.id, p.book.ref, AUTO, IntAbs(p.statement.amount))
  }

  function RecordAll(r: Recon, session: SessionId, pairs: seq<Pair>): Recon
    requires forall p :: p in pairs ==> p.statement.id in r.lines
    decreases |pairs|
  {
    if pairs == [] then r
    else RecordAll(Recorded(r, AutoMatchOf(session, pairs[0])), session, pairs[1..])
  }

  function AutoMatched(r: Recon, id: SessionId, unmatched: seq<StatementItem>, candidates: seq<BookItem>): ReconOutcome
    requires forall s :: s in unmatched ==> s.id in r.lines
  {
    if id !in r.sessions then ReconOutcome(r, Err(NotFound))
    else if r.sessions[id].status != SessionStatus.DRAFT then ReconOutcome(r, Err(Conflict))
    else
      GreedyDrawsFrom(unmatched, candidates);
      var pairs := Greedy(unmatched, candidates);
      ReconOutcome(RecordAll(r, id, pairs), Ok(|pairs|))
  }

  function ManuallyMatched(r: Recon, id: SessionId, line: LineId, ref: LineRef): ReconOutcome {
    if id !in r.sessions then ReconOutcome(r, Err(NotFound))
    else if r.sessions[id].status != SessionStatus.DRAFT then ReconOutcome(r, Err(Conflict))
    else if line !in r.lines || r.lines[line].statement != r.sessions[id].statement then ReconOutcome(r, Err(NotFound))
    else if r.lines[line].isMatched then ReconOutcome(r, Err(Conflict))
    else if !ValidRef(r.ledger, ref) then ReconOutcome(r, Err(NotFound))
    else ReconOutcome(Recorded(r, Match(id, line, ref, MANUAL, IntAbs(r.lines[line].amount))), Ok(line))
  }

  datatype AdjustmentType = BANK_CHARGE | INTEREST_INCOME

  /** Dr or Cr the bank account, the other way on the contra account; the bank line comes first. */
  function AdjustmentLines(bankGl: AccountId, contra: AccountId, amount: int): seq<LineInput> {
    var size := IntAbs(amount) as real;
    if amount > 0 then [LineInput(bankGl, size, 0.0, NO_DIMENSIONS), LineInput(contra, 0.0, size, NO_DIMENSIONS)]
    else [LineInput(bankGl, 0.0, size, NO_DIMENSIONS), LineInput(contra, size, 0.0, NO_DIMENSIONS)]
  }

  /** lines.find: the bank line, unless the contra line is on the bank account too and the database lists it first. */
  function AdjustedLine(bankGl: AccountId, contra: AccountId, contraFirst: bool): nat {
    if contra == bankGl && contraFirst then 1 else 0
  }

  function Adjusted(r: Recon, master: Master, id: SessionId, line: LineId, kind: AdjustmentType,
                    contra: AccountId, user: UserId, contraFirst: bool): ReconOutcome
  {
    if id !in r.sessions then ReconOutcome(r, Err(NotFound))
    else if r.sessions[id].status != SessionStatus.DRAFT then ReconOutcome(r, Err(Conflict))
    else if line !in r.lines || r.lines[line].statement != r.sessions[id].statement then ReconOutcome(r, Err(NotFound))
    else if r.lines[line].isMatched then ReconOutcome(r, Err(Conflict))
    else
      var session, item := r.sessions[id], r.lines[line];
      var isDeposit := item.amount > 0;
      if kind == INTEREST_INCOME && !isDeposit then ReconOutcome(r, Err(BadRequest))
      else if kind == BANK_CHARGE && isDeposit then ReconOutcome(r, Err(BadRequest))
      else
        var input := EntryInput(session.entity, item.date, AdjustmentLines(session.bankGl, contra, item.amount));
        var posted := PostSystem(r.ledger, master, input, user);
        match posted.result
        case Err(e) => ReconOutcome(r.(ledger := posted.ledger), Err(e))
        case Ok(entry) =>
          var book := LineRef(entry, AdjustedLine(session.bankGl, contra, contraFirst));
          var m := Match(id, line, book, ADJUSTMENT, IntAbs(item.amount));
          ReconOutcome(Recorded(r.(ledger := posted.ledger), m), Ok(line))
  }

  predicate AllMatched(r: Recon, ids: seq<LineId>) {
    forall id :: id in ids ==> id in r.lines && r.lines[id].isMatched
  }

  function Approved(r: Recon, id: SessionId, user: UserId): ReconOutcome {
    if id !in r.sessions then ReconOutcome(r, Err(NotFound))
    else
      var session := r.sessions[id];
      if session.status != SessionStatus.DRAFT then ReconOutcome(r, Err(Conflict))
      else if session.createdBy == user then ReconOutcome(r, Err(BadRequest))
      else if session.statement !in r.statements || !AllMatched(r, r.statements[session.statement].lines) then
        ReconOutcome(r, Err(BadRequest))
      else ReconOutcome(r.(sessions := r.sessions[id := session.(status := SessionStatus.APPROVED)]), Ok(id))
  }

  // ---- The service ----

  class ReconciliationService {
    const engine: Engine
    var statements: map<StatementId, Statement>
    var lines: map<LineId, StatementLine>
    var sessions: map<SessionId, Session>
    var matches: seq<Match>

    constructor (engine: Engine)
      ensures this.engine == engine && State() == Recon(engine.Books(), map[], map[], map[], [])
    {
      this.engine := engine;
      statements, lines, sessions, matches := map[], map[], map[], [];
    }

    function State(): Recon
      reads this, engine
    {
      Recon(engine.Books(), statements, lines, sessions, matches)
    }

    method ImportStatement(activeBankAccounts: set<nat>, entity: EntityId, bankAccount: nat,
                           id: StatementId, ids: seq<LineId>, items: seq<ItemInput>) returns (result: Result<nat>)
      requires |ids| == |items|
      modifies this
      ensures ReconOutcome(State(), result)
              == Imported(old(State()), activeBankAccounts, entity, bankAccount, id, ids, items)
    {
      if bankAccount !in activeBankAccounts {
        return Err(NotFound);
      }
      statements := statements[id := Statement(entity, bankAccount, ids)];
      for k := 0 to |ids|
        invariant ImportedLines(old(lines), id, ids, items) == ImportedLines(lines, id, ids[k..], items[k..])
        invariant State() == old(State()).(statements := old(statements)[id := Statement(entity, bankAccount, ids)],
                                           lines := lines)
      {
        assert ids[k..][0] == ids[k] && ids[k..][1..] == ids[k + 1..] && items[k..][1..] == items[k + 1..];
        lines := lines[ids[k] := StatementLine(id, items[k].date, Store(items[k].amount), false)];
      }
      return Ok(id);
    }

    method CreateSession(id: SessionId, s: Session, user: UserId) returns (result: Result<nat>)
      modifies this
      ensures ReconOutcome(State(), result) == Started(old(State()), id, s, user)
    {
      if s.statement !in statements {
        return Err(NotFound);
      }
      var statement := statements[s.statement];
      if statement.bankAccount != s.bankAccount || statement.entity != s.entity {
        return Err(BadRequest);
      }
      sessions := sessions[id := s.(status := SessionStatus.DRAFT, createdBy := user)];
      return Ok(id);
    }

    method RecordMatch(m: Match)
      requires m.line in lines
      modifies this`matches, this`lines
      ensures State() == Recorded(old(State()), m)
    {
      matches := matches + [m];
      lines := lines[m.line := lines[m.line].(isMatched := true)];
    }

    /** The source writes each match as its loop finds it; here the loop of MatchAll finds them and this one writes
        them. */
    method AutoMatch(id: SessionId, unmatched: seq<StatementItem>, candidates: seq<BookItem>)
      returns (result: Result<nat>)
      requires Queried(State(), id, unmatched, candidates)
      requires forall s :: s in unmatched ==> s.id in lines
      modifies this
      ensures ReconOutcome(State(), result) == AutoMatched(old(State()), id, unmatched, candidates)
    {
      if id !in sessions {
        return Err(NotFound);
      }
      if sessions[id].status != SessionStatus.DRAFT {
        return Err(Conflict);
      }
      var pairs, matchedCount := MatchAll(unmatched, candidates);
      GreedyDrawsFrom(unmatched, candidates);
      for k := 0 to |pairs|
        invariant forall p :: p in pairs ==> p.statement.id in lines
        invariant RecordAll(old(State()), id, pairs) == RecordAll(State(), id, pairs[k..])
      {
        assert pairs[k..][0] == pairs[k] && pairs[k..][1..] == pairs[k + 1..];
        RecordMatch(AutoMatchOf(id, pairs[k]));
      }
      return Ok(matchedCount);
    }

    method ManualMatch(id: SessionId, line: LineId, ref: LineRef) returns (result: Result<nat>)
      modifies this
      ensures ReconOutcome(State(), result) == ManuallyMatched(old(State()), id, line, ref)
    {
      if id !in sessions {
        return Err(NotFound);
      }
      if sessions[id].status != SessionStatus.DRAFT {
        return Err(Conflict);
      }
      if line !in lines || lines[line].statement != sessions[id].statement {
        return Err(NotFound);
      }
      if lines[line].isMatched {
        return Err(Conflict);
      }
      if ref.entry >= |engine.entries| || ref.index >= |engine.entries[ref.entry].lines| {
        return Err(NotFound);
      }
      RecordMatch(Match(id, line, ref, MANUAL, IntAbs(lines[line].amount)));
      return Ok(line);
    }

    method RecordAdjustment(master: Master, id: SessionId, line: LineId, kind: AdjustmentType, contra: AccountId,
                            user: UserId, contraFirst: bool)
      returns (result: Result<nat>)
      modifies this, engine
      ensures ReconOutcome(State(), result) ==
              Adjusted(old(State()), master, id, line, kind, contra, user, contraFirst)
    {
      if id !in sessions {
        return Err(NotFound);
      }
      var session := sessions[id];
      if session.status != SessionStatus.DRAFT {
        return Err(Conflict);
      }
      if line !in lines || lines[line].statement != session.statement {
        return Err(NotFound);
      }
      var item := lines[line];
      if item.isMatched {
        return Err(Conflict);
      }
      var isDeposit := item.amount > 0;
      if kind == INTEREST_INCOME && !isDeposit {
        return Err(BadRequest);
      }
      if kind == BANK_CHARGE && isDeposit {
        return Err(BadRequest);
      }
      var input := EntryInput(session.entity, item.date, AdjustmentLines(session.bankGl, contra, item.amount));
      var posted := engine.PostSystemEntry(master, input, user);
      if posted.Err? {
        return Err(posted.error);
      }
      var book := LineRef(posted.value, AdjustedLine(session.bankGl, contra, contraFirst));
      RecordMatch(Match(id, line, book, ADJUSTMENT, IntAbs(item.amount)));
      return Ok(line);
    }

    method ApproveSession(id: SessionId, user: UserId) returns (result: Result<nat>)
      modifies this
      ensures ReconOutcome(State(), result) == Approved(old(State()), id, user)
    {
      if id !in sessions {
        return Err(NotFound);
      }
      var session := sessions[id];
      if session.status != SessionStatus.DRAFT {
        return Err(Conflict);
      }
      if session.createdBy == user {
        return Err(BadRequest);
      }
      if session.statement !in statements {
        return Err(BadRequest);
      }
      var ids := statements[session.statement].lines;
      for k := 0 to |ids|
        invariant AllMatched(State(), ids[..k])
      {
        if ids[k] !in lines || !lines[ids[k]].isMatched {
          assert ids[k] in ids;
          return Err(BadRequest);
        }
        assert ids[..k + 1] == ids[..k] + [ids[k]];
      }
      assert ids[..|ids|] == ids;
      sessions := sessions[id := session.(status := SessionStatus.APPROVED)];
      return Ok(id);
    }
  }
}
