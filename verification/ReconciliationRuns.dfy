/** Reconciliation over whole runs: one match per matched line, and the gap of a signed-off statement. */
module ReconciliationRuns {
  import opened Money
  import opened Ledger
  import opened Kernel
  import opened LedgerRuns
  import opened AssetLifetime
  import opened Matching
  import opened BankReconciliation

  // ---- Invariant ----

  /** The book line an automatic match or an adjustment points at. */
  predicate BookFits(l: Ledger, bankGl: AccountId, amount: int, m: Match) {
    && ValidRef(l, m.book)
    && (m.kind == AUTO ==>
          && LineAt(l, m.book).account == bankGl
          && var side := Side(amount, LineAt(l, m.book).debit, LineAt(l, m.book).credit);
             IntAbs(side - IntAbs(amount)) <= AMOUNT_TOLERANCE)
    && (m.kind == ADJUSTMENT ==>
          && LineAt(l, m.book).account == bankGl
          && (AloneOnAccount(l, m.book) ==> NetOf(LineAt(l, m.book)) == amount))
  }

  /** No other line of the entry is on the line's account. */
  predicate AloneOnAccount(l: Ledger, ref: LineRef)
    requires ValidRef(l, ref)
  {
    forall k :: 0 <= k < |l.entries[ref.entry].lines| && k != ref.index ==>
      l.entries[ref.entry].lines[k].account != LineAt(l, ref).account
  }

  predicate MatchFits(r: Recon, m: Match) {
    && m.session in r.sessions && m.line in r.lines
    && r.lines[m.line].statement == r.sessions[m.session].statement
    && m.amount == IntAbs(r.lines[m.line].amount)
    && BookFits(r.ledger, r.sessions[m.session].bankGl, r.lines[m.line].amount, m)
  }

  predicate Matches(r: Recon, i: nat, line: LineId) {
    i < |r.matches| && r.matches[i].line == line
  }

  ghost predicate HasMatch(r: Recon, line: LineId) {
    exists i: nat :: Matches(r, i, line)
  }

  /** Match records fit their session and line, and a line is matched exactly when it has a record, which is then the
      only one. */
  ghost predicate MatchesSound(r: Recon) {
    && (forall i :: 0 <= i < |r.matches| ==> MatchFits(r, r.matches[i]))
    && (forall line :: line in r.lines ==> (r.lines[line].isMatched <==> HasMatch(r, line)))
    && (forall i: nat, j: nat, line: LineId :: Matches(r, i, line) && Matches(r, j, line) ==> i == j)
  }

  predicate StatementSound(r: Recon, id: StatementId)
    requires id in r.statements
  {
    && (forall line :: line in r.statements[id].lines ==> line in r.lines && r.lines[line].statement == id)
    && (forall j, k :: 0 <= j < k < |r.statements[id].lines| ==> r.statements[id].lines[j] != r.statements[id].lines[k])
  }

  /** The machine, or an adjustment, chose the book line. */
  predicate Machine(m: Match) {
    m.kind != MANUAL
  }

  /** Two choices of the machine in one session name different book lines. */
  predicate Apart(m: Match, n: Match) {
    Machine(m) && Machine(n) && m.session == n.session ==> m.book != n.book
  }

  /** Within a session, the machine and adjustments name each book line at most once. */
  predicate SessionDistinct(r: Recon) {
    forall i, j :: 0 <= i < j < |r.matches| ==> Apart(r.matches[i], r.matches[j])
  }

  predicate SessionSound(r: Recon, id: SessionId)
    requires id in r.sessions
  {
    && r.sessions[id].statement in r.statements
    && (r.sessions[id].status == SessionStatus.APPROVED ==> AllMatched(r, r.statements[r.sessions[id].statement].lines))
  }

  ghost predicate ReconSound(r: Recon) {
    && Sound(r.ledger)
    && MatchesSound(r)
    && SessionDistinct(r)
    && (forall id :: id in r.statements ==> StatementSound(r, id))
    && (forall id :: id in r.sessions ==> SessionSound(r, id))
  }

  // ---- Steps ----

  datatype ReconStep =
    | Import(activeBankAccounts: set<nat>, entity: EntityId, bankAccount: nat, statement: StatementId,
             ids: seq<LineId>, items: seq<ItemInput>)
    | Start(id: SessionId, session: Session, user: UserId)
    | Auto(id: SessionId, unmatched: seq<StatementItem>, candidates: seq<BookItem>)
    | Manual(id: SessionId, line: LineId, ref: LineRef)
    | Adjust(master: Master, id: SessionId, line: LineId, kind: AdjustmentType, contra: AccountId, user: UserId,
             contraFirst: bool)
    | SignOff(id: SessionId, user: UserId)
    | Elsewhere(step: Step)

  /** New identifiers are new, and queries return what they should. */
  ghost predicate Admissible(r: Recon, s: ReconStep) {
    match s
    case Import(_, _, _, statement, ids, items) =>
      && |ids| == |items| && statement !in r.statements
      && (forall id :: id in ids ==> id !in r.lines)
      && (forall j, k :: 0 <= j < k < |ids| ==> ids[j] != ids[k])
    case Start(id, _, _) => id !in r.sessions
    case Auto(id, unmatched, candidates) =>
      Queried(r, id, unmatched, candidates) && forall s :: s in unmatched ==> s.id in r.lines
    case _ => true
  }

  ghost function ApplyRecon(r: Recon, s: ReconStep): Recon
    requires Admissible(r, s)
  {
    match s
    case Import(active, entity, bankAccount, statement, ids, items) =>
      Imported(r, active, entity, bankAccount, statement, ids, items).recon
    case Start(id, session, user) => Started(r, id, session, user).recon
    case Auto(id, unmatched, candidates) => AutoMatched(r, id, unmatched, candidates).recon
    case Manual(id, line, ref) => ManuallyMatched(r, id, line, ref).recon
    case Adjust(master, id, line, kind, contra, user, contraFirst) =>
      Adjusted(r, master, id, line, kind, contra, user, contraFirst).recon
    case SignOff(id, user) => Approved(r, id, user).recon
    case Elsewhere(step) => r.(ledger := Apply(r.ledger, step).ledger)
  }

  ghost predicate Reaches(r: Recon, steps: seq<ReconStep>, later: Recon)
    decreases |steps|
  {
    if steps == [] then later == r
    else Admissible(r, steps[0]) && Reaches(ApplyRecon(r, steps[0]), steps[1..], later)
  }

  const NEW_RECON := Recon(EMPTY, map[], map[], map[], [])

  // ---- Preservation ----

  lemma RecordedMatches(r: Recon, m: Match)
    requires MatchesSound(r) && MatchFits(r, m) && !r.lines[m.line].isMatched
    ensures MatchesSound(Recorded(r, m))
  {
    hide BookFits;
    var after := Recorded(r, m);
    forall i | 0 <= i < |after.matches|
      ensures MatchFits(after, after.matches[i])
    {
      if i < |r.matches| {
        assert MatchFits(r, r.matches[i]);
      }
    }
    forall i: nat, line: LineId
      ensures Matches(after, i, line) <==> Matches(r, i, line) || (i == |r.matches| && line == m.line)
    {
    }
    forall line | line in after.lines
      ensures after.lines[line].isMatched <==> HasMatch(after, line)
    {
      if line == m.line {
        assert Matches(after, |r.matches|, line);
      } else if r.lines[line].isMatched {
        assert HasMatch(r, line);
        var i: nat :| Matches(r, i, line);
        assert Matches(after, i, line);
      }
    }
    forall i: nat, j: nat, line: LineId | Matches(after, i, line) && Matches(after, j, line)
      ensures i == j
    {
      assert line == m.line ==> !HasMatch(r, line);
      assert i < |r.matches| ==> Matches(r, i, line);
      assert j < |r.matches| ==> Matches(r, j, line);
    }
  }

  lemma RecordedDistinct(r: Recon, m: Match)
    requires SessionDistinct(r) && m.line in r.lines
    requires Machine(m) ==> !MatchedIn(r, m.session, m.book)
    ensures SessionDistinct(Recorded(r, m))
  {
  }

  lemma RecordedSound(r: Recon, m: Match)
    requires ReconSound(r) && MatchFits(r, m) && !r.lines[m.line].isMatched
    requires Machine(m) ==> !MatchedIn(r, m.session, m.book)
    ensures ReconSound(Recorded(r, m))
  {
    assert m.line in r.lines;
    hide MatchesSound, SessionDistinct, MatchFits, MatchedIn, StatementSound, SessionSound, Sound, Machine;
    RecordedMatches(r, m);
    RecordedDistinct(r, m);
    TablesKept(r, Recorded(r, m));
  }

  /** Statements and sessions stay sound when lines only become matched. */
  lemma TablesKept(r: Recon, after: Recon)
    requires forall id :: id in r.statements ==> StatementSound(r, id)
    requires forall id :: id in r.sessions ==> SessionSound(r, id)
    requires after.statements == r.statements && after.sessions == r.sessions
    requires forall line :: line in r.lines ==>
               line in after.lines && after.lines[line].statement == r.lines[line].statement
               && (r.lines[line].isMatched ==> after.lines[line].isMatched)
    ensures forall id :: id in after.statements ==> StatementSound(after, id)
    ensures forall id :: id in after.sessions ==> SessionSound(after, id)
  {
    forall id | id in after.statements
      ensures StatementSound(after, id)
    {
      assert StatementSound(r, id);
    }
    forall id | id in after.sessions
      ensures SessionSound(after, id)
    {
      assert SessionSound(r, id);
    }
  }

  lemma RefKept(l: Ledger, later: Ledger, ref: LineRef)
    requires ValidRef(l, ref) && Extends(l, later)
    ensures ValidRef(later, ref) && LineAt(later, ref) == LineAt(l, ref)
  {
    assert Matures(l, l.entries[ref.entry], later.entries[ref.entry]);
  }

  lemma LedgerMoved(r: Recon, later: Ledger)
    requires ReconSound(r) && Sound(later) && Extends(r.ledger, later)
    ensures ReconSound(r.(ledger := later))
  {
    var after := r.(ledger := later);
    forall i | 0 <= i < |r.matches|
      ensures MatchFits(after, r.matches[i])
    {
      assert MatchFits(r, r.matches[i]);
      RefKept(r.ledger, later, r.matches[i].book);
    }
    forall i: nat, line: LineId
      ensures Matches(after, i, line) <==> Matches(r, i, line)
    {
    }
    forall line | line in r.lines
      ensures HasMatch(after, line) <==> HasMatch(r, line)
    {
      if HasMatch(r, line) {
        var i: nat :| Matches(r, i, line);
        assert Matches(after, i, line);
      }
    }
    TablesKept(r, after);
  }

  /** The pair's line is open, its book line is not used in the session, and they fit. */
  predicate OpenPair(r: Recon, session: SessionId, p: Pair) {
    && p.statement.id in r.lines && !r.lines[p.statement.id].isMatched
    && MatchFits(r, AutoMatchOf(session, p)) && !MatchedIn(r, session, p.book.ref)
  }

  /** Pairs that are open, fit, and name each line once can all be recorded. */
  predicate Recordable(r: Recon, session: SessionId, pairs: seq<Pair>) {
    && (forall p :: p in pairs ==> OpenPair(r, session, p))
    && (forall j, k :: 0 <= j < k < |pairs| ==>
          pairs[j].statement.id != pairs[k].statement.id && pairs[j].book.ref != pairs[k].book.ref)
  }

  lemma {:induction false} RecordAllSound(r: Recon, session: SessionId, pairs: seq<Pair>)
    requires ReconSound(r) && Recordable(r, session, pairs)
    requires forall p :: p in pairs ==> p.statement.id in r.lines
    ensures ReconSound(RecordAll(r, session, pairs))
    decreases |pairs|
  {
    if pairs != [] {
      hide ReconSound, MatchFits, MatchedIn;
      var m := AutoMatchOf(session, pairs[0]);
      assert pairs[0] in pairs && OpenPair(r, session, pairs[0]);
      RecordedSound(r, m);
      RestRecordable(r, session, pairs);
      RecordAllSound(Recorded(r, m), session, pairs[1..]);
    }
  }

  lemma RestRecordable(r: Recon, session: SessionId, pairs: seq<Pair>)
    requires pairs != [] && Recordable(r, session, pairs)
    requires forall p :: p in pairs ==> p.statement.id in r.lines
    ensures Recordable(Recorded(r, AutoMatchOf(session, pairs[0])), session, pairs[1..])
  {
    var next := Recorded(r, AutoMatchOf(session, pairs[0]));
    forall p | p in pairs[1..]
      ensures OpenPair(next, session, p)
    {
      hide BookFits;
      assert p in pairs && OpenPair(r, session, p);
      assert p.book.ref != pairs[0].book.ref;
    }
  }

  lemma PairFits(r: Recon, id: SessionId, unmatched: seq<StatementItem>, candidates: seq<BookItem>, p: Pair)
    requires id in r.sessions && Queried(r, id, unmatched, candidates)
    requires p.statement in unmatched && p.book in candidates && Compatible(p.statement, p.book)
    ensures p.statement.id in r.lines && !r.lines[p.statement.id].isMatched
    ensures MatchFits(r, AutoMatchOf(id, p)) && !MatchedIn(r, id, p.book.ref)
  {
    assert Open(r, id, p.statement.id) && Available(r, id, p.book.ref);
  }

  lemma GreedyRecordable(r: Recon, id: SessionId, unmatched: seq<StatementItem>, candidates: seq<BookItem>)
    requires id in r.sessions && Queried(r, id, unmatched, candidates)
    ensures Recordable(r, id, Greedy(unmatched, candidates))
    ensures forall p :: p in Greedy(unmatched, candidates) ==> p.statement.id in r.lines
  {
    GreedyIsMatching(unmatched, candidates);
    hide *;
    MatchingFits(r, id, unmatched, candidates, Greedy(unmatched, candidates));
    MatchingApart(r, id, unmatched, candidates, Greedy(unmatched, candidates));
    OpenPairsInLines(r, id, Greedy(unmatched, candidates));
  }

  lemma OpenPairsInLines(r: Recon, session: SessionId, pairs: seq<Pair>)
    requires forall p :: p in pairs ==> OpenPair(r, session, p)
    ensures forall p :: p in pairs ==> p.statement.id in r.lines
  {
  }

  lemma MatchingFits(r: Recon, id: SessionId, unmatched: seq<StatementItem>, candidates: seq<BookItem>,
                     pairs: seq<Pair>)
    requires id in r.sessions && Queried(r, id, unmatched, candidates) && IsMatching(pairs, unmatched, candidates)
    ensures forall p :: p in pairs ==> OpenPair(r, id, p)
  {
    hide MatchFits, MatchedIn, Queried, Compatible;
    forall p | p in pairs
      ensures OpenPair(r, id, p)
    {
      PairFits(r, id, unmatched, candidates, p);
    }
  }

  lemma MatchingApart(r: Recon, id: SessionId, unmatched: seq<StatementItem>, candidates: seq<BookItem>,
                      pairs: seq<Pair>)
    requires id in r.sessions && Queried(r, id, unmatched, candidates) && IsMatching(pairs, unmatched, candidates)
    ensures forall j, k :: 0 <= j < k < |pairs| ==>
              pairs[j].statement.id != pairs[k].statement.id && pairs[j].book.ref != pairs[k].book.ref
  {
    hide Queried, Compatible;
    forall j, k | 0 <= j < k < |pairs|
      ensures pairs[j].statement.id != pairs[k].statement.id && pairs[j].book.ref != pairs[k].book.ref
    {
      PairsApart(r, id, unmatched, candidates, pairs[j], pairs[k]);
    }
  }

  lemma PairsApart(r: Recon, id: SessionId, unmatched: seq<StatementItem>, candidates: seq<BookItem>, p: Pair, q: Pair)
    requires id in r.sessions && Queried(r, id, unmatched, candidates)
    requires p.statement in unmatched && q.statement in unmatched && p.statement != q.statement
    requires p.book in candidates && q.book in candidates && p.book != q.book
    ensures p.statement.id != q.statement.id && p.book.ref != q.book.ref
  {
    hide Open, Available;
    assert Open(r, id, p.statement.id) && Available(r, id, p.book.ref);
  }

  lemma AutoMatchedSound(r: Recon, id: SessionId, unmatched: seq<StatementItem>, candidates: seq<BookItem>)
    requires ReconSound(r) && Queried(r, id, unmatched, candidates)
    requires forall s :: s in unmatched ==> s.id in r.lines
    ensures ReconSound(AutoMatched(r, id, unmatched, candidates).recon)
  {
    hide ReconSound, Queried, Greedy, Recordable, RecordAll;
    if id in r.sessions && r.sessions[id].status == SessionStatus.DRAFT {
      GreedyDrawsFrom(unmatched, candidates);
      GreedyRecordable(r, id, unmatched, candidates);
      RecordAllSound(r, id, Greedy(unmatched, candidates));
    }
  }

  lemma AdjustedSound(r: Recon, master: Master, id: SessionId, line: LineId, kind: AdjustmentType, contra: AccountId,
                      user: UserId, contraFirst: bool)
    requires ReconSound(r)
    ensures ReconSound(Adjusted(r, master, id, line, kind, contra, user, contraFirst).recon)
  {
    hide PostSystem, Sound, Extends, AdjustmentLines, MatchFits, BookFits, MatchesSound, SessionDistinct,
         StatementSound, SessionSound, Wrote, StoreLines, MatchedIn;
    if id in r.sessions && line in r.lines {
      var session, item := r.sessions[id], r.lines[line];
      var input := EntryInput(session.entity, item.date, AdjustmentLines(session.bankGl, contra, item.amount));
      var o := PostSystem(r.ledger, master, input, user);
      PostSystemSound(r.ledger, master, input, user);
      LedgerMoved(r, o.ledger);
      if Adjusted(r, master, id, line, kind, contra, user, contraFirst).result.Ok? {
        var m := Match(id, line, LineRef(o.result.value, AdjustedLine(session.bankGl, contra, contraFirst)), ADJUSTMENT,
                       IntAbs(item.amount));
        AdjustmentFits(r.ledger, master, input, user, contra, item.amount, contraFirst, session.bankGl, m);
        NewEntryUnmatched(r, id, m.book, o.ledger);
        FitsIts(r.(ledger := o.ledger), m);
        RecordedSound(r.(ledger := o.ledger), m);
      }
    }
  }

  lemma FitsIts(r: Recon, m: Match)
    requires m.session in r.sessions && m.line in r.lines
    requires r.lines[m.line].statement == r.sessions[m.session].statement
    requires m.amount == IntAbs(r.lines[m.line].amount)
    requires BookFits(r.ledger, r.sessions[m.session].bankGl, r.lines[m.line].amount, m)
    ensures MatchFits(r, m)
  {
  }

  /** The line of an adjustment's entry that it is matched to fits, in a new entry. */
  lemma AdjustmentFits(l: Ledger, master: Master, input: EntryInput, user: UserId, contra: AccountId, amount: int,
                       contraFirst: bool, bankGl: AccountId, m: Match)
    requires input.lines == AdjustmentLines(bankGl, contra, amount)
    requires PostSystem(l, master, input, user).result.Ok?
    requires m.kind == ADJUSTMENT
    requires m.book
            == LineRef(PostSystem(l, master, input, user).result.value, AdjustedLine(bankGl, contra, contraFirst))
    ensures BookFits(PostSystem(l, master, input, user).ledger, bankGl, amount, m) && m.book.entry == |l.entries|
  {
    var e := PostSystem(l, master, input, user).ledger.entries[m.book.entry];
    StoreWhole(IntAbs(amount));
    StoreWhole(0);
    hide Balanced, NoZeroLines, LinesPostable, Store;
    assert e.lines[0] == StoreLine(input.entity, input.lines[0]);
    assert e.lines[1] == StoreLine(input.entity, input.lines[1]);
  }

  /** A line of an entry that did not exist is in no match. */
  lemma NewEntryUnmatched(r: Recon, id: SessionId, book: LineRef, later: Ledger)
    requires MatchesSound(r) && book.entry >= |r.ledger.entries|
    ensures !MatchedIn(r.(ledger := later), id, book)
  {
    forall i | 0 <= i < |r.matches|
      ensures r.matches[i].book != book
    {
      assert MatchFits(r, r.matches[i]);
    }
  }

  lemma {:induction false} ImportedLine(lines: map<LineId, StatementLine>, id: StatementId, ids: seq<LineId>,
                                        items: seq<ItemInput>, line: LineId)
    requires |ids| == |items|
    ensures
      var after := ImportedLines(lines, id, ids, items);
      && (line in after <==> line in lines || line in ids)
      && (line in lines && line !in ids ==> after[line] == lines[line])
      && (line in ids ==> after[line].statement == id && !after[line].isMatched)
    decreases |ids|
  {
    if ids != [] {
      var next := lines[ids[0] := StatementLine(id, items[0].date, Store(items[0].amount), false)];
      ImportedLine(next, id, ids[1..], items[1..], line);
    }
  }

  /** after is r with one new statement of new, unmatched lines. */
  predicate Adds(r: Recon, after: Recon, id: StatementId, ids: seq<LineId>) {
    && after.ledger == r.ledger && after.sessions == r.sessions && after.matches == r.matches
    && id !in r.statements && id in after.statements && after.statements[id].lines == ids
    && (forall j, k :: 0 <= j < k < |ids| ==> ids[j] != ids[k])
    && (forall s :: s in after.statements && s != id ==> s in r.statements && after.statements[s] == r.statements[s])
    && (forall s :: s in r.statements ==> s in after.statements && after.statements[s] == r.statements[s])
    && (forall line :: line in r.lines ==> line in after.lines && after.lines[line] == r.lines[line])
    && (forall line :: line in ids ==> line in after.lines && line !in r.lines && after.lines[line].statement == id)
    && (forall line :: line in after.lines ==> line in r.lines || (line in ids && !after.lines[line].isMatched))
  }

  lemma AddsMatches(r: Recon, after: Recon, id: StatementId, ids: seq<LineId>)
    requires MatchesSound(r) && Adds(r, after, id, ids)
    ensures MatchesSound(after)
  {
    forall i | 0 <= i < |r.matches|
      ensures MatchFits(after, r.matches[i]) && r.matches[i].line in r.lines
    {
      assert MatchFits(r, r.matches[i]);
    }
    forall i: nat, line: LineId
      ensures Matches(after, i, line) <==> Matches(r, i, line)
    {
    }
    forall line | line in after.lines
      ensures after.lines[line].isMatched <==> HasMatch(after, line)
    {
      if HasMatch(r, line) {
        var i: nat :| Matches(r, i, line);
        assert Matches(after, i, line);
      } else {
        assert !HasMatch(after, line);
      }
    }
  }

  lemma AddsTables(r: Recon, after: Recon, id: StatementId, ids: seq<LineId>)
    requires ReconSound(r) && Adds(r, after, id, ids)
    ensures forall s :: s in after.statements ==> StatementSound(after, s)
    ensures forall s :: s in after.sessions ==> SessionSound(after, s)
  {
    forall s | s in after.statements
      ensures StatementSound(after, s)
    {
      if s != id {
        assert StatementSound(r, s);
      }
    }
    forall s | s in after.sessions
      ensures SessionSound(after, s)
    {
      assert SessionSound(r, s);
    }
  }

  lemma ImportedSound(r: Recon, active: set<nat>, entity: EntityId, bankAccount: nat, id: StatementId, ids: seq<LineId>,
                      items: seq<ItemInput>)
    requires ReconSound(r) && Admissible(r, Import(active, entity, bankAccount, id, ids, items))
    ensures ReconSound(Imported(r, active, entity, bankAccount, id, ids, items).recon)
  {
    if bankAccount in active {
      var after := Imported(r, active, entity, bankAccount, id, ids, items).recon;
      forall line
        ensures line in after.lines <==> line in r.lines || line in ids
        ensures line in r.lines && line !in ids ==> after.lines[line] == r.lines[line]
        ensures line in ids ==> after.lines[line].statement == id && !after.lines[line].isMatched
      {
        ImportedLine(r.lines, id, ids, items, line);
      }
      assert Adds(r, after, id, ids);
      AddsMatches(r, after, id, ids);
      AddsTables(r, after, id, ids);
    }
  }

  lemma SessionWritten(r: Recon, id: SessionId, session: Session)
    requires ReconSound(r) && session.statement in r.statements
    requires session.status == SessionStatus.APPROVED ==> AllMatched(r, r.statements[session.statement].lines)
    requires id in r.sessions ==>
          session.statement == r.sessions[id].statement && session.bankGl == r.sessions[id].bankGl
    ensures ReconSound(r.(sessions := r.sessions[id := session]))
  {
    var after := r.(sessions := r.sessions[id := session]);
    forall i | 0 <= i < |r.matches|
      ensures MatchFits(after, r.matches[i])
    {
      assert MatchFits(r, r.matches[i]);
    }
    forall i: nat, line: LineId
      ensures Matches(after, i, line) <==> Matches(r, i, line)
    {
    }
    forall line | line in r.lines
      ensures HasMatch(after, line) <==> HasMatch(r, line)
    {
      if HasMatch(r, line) {
        var i: nat :| Matches(r, i, line);
        assert Matches(after, i, line);
      }
    }
    forall s | s in after.statements
      ensures StatementSound(after, s)
    {
      assert StatementSound(r, s);
    }
    forall s | s in after.sessions
      ensures SessionSound(after, s)
    {
      if s != id {
        assert SessionSound(r, s);
      }
    }
  }

  lemma ManuallyMatchedSound(r: Recon, id: SessionId, line: LineId, ref: LineRef)
    requires ReconSound(r)
    ensures ReconSound(ManuallyMatched(r, id, line, ref).recon)
  {
    hide ReconSound;
    if ManuallyMatched(r, id, line, ref).result.Ok? {
      RecordedSound(r, Match(id, line, ref, MANUAL, IntAbs(r.lines[line].amount)));
    }
  }

  lemma ReconStepSound(r: Recon, s: ReconStep)
    requires ReconSound(r) && Admissible(r, s)
    ensures ReconSound(ApplyRecon(r, s))
  {
    hide Adjusted, ManuallyMatched, AutoMatched, Imported, MatchesSound, SessionDistinct, Sound, StatementSound;
    match s
    case Import(active, entity, bankAccount, statement, ids, items) =>
      ImportedSound(r, active, entity, bankAccount, statement, ids, items);
    case Start(id, session, user) =>
      if session.statement in r.statements {
        SessionWritten(r, id, session.(status := SessionStatus.DRAFT, createdBy := user));
      }
    case Auto(id, unmatched, candidates) => AutoMatchedSound(r, id, unmatched, candidates);
    case Manual(id, line, ref) => ManuallyMatchedSound(r, id, line, ref);
    case Adjust(master, id, line, kind, contra, user, contraFirst) =>
      AdjustedSound(r, master, id, line, kind, contra, user, contraFirst);
    case SignOff(id, user) =>
      if Approved(r, id, user).result.Ok? {
        SessionWritten(r, id, r.sessions[id].(status := SessionStatus.APPROVED));
      }
    case Elsewhere(step) =>
      StepSound(r.ledger, step);
      LedgerMoved(r, Apply(r.ledger, step).ledger);
  }

  lemma {:induction false} ReachableSound(r: Recon, steps: seq<ReconStep>, later: Recon)
    requires ReconSound(r) && Reaches(r, steps, later)
    ensures ReconSound(later)
    decreases |steps|
  {
    if steps != [] {
      ReconStepSound(r, steps[0]);
      ReachableSound(ApplyRecon(r, steps[0]), steps[1..], later);
    }
  }

  lemma EveryReconSound(steps: seq<ReconStep>, r: Recon)
    requires Reaches(NEW_RECON, steps, r)
    ensures ReconSound(r)
  {
    EveryRunSound([]);
    assert Run(EMPTY, []) == EMPTY;
    ReachableSound(NEW_RECON, steps, r);
  }

  /** After any run, across all sessions, a statement line is matched exactly when one match record names it, and only
      one does. */
  lemma MatchedExactlyOnce(steps: seq<ReconStep>, r: Recon, line: LineId)
    requires Reaches(NEW_RECON, steps, r) && line in r.lines
    ensures r.lines[line].isMatched <==> HasMatch(r, line)
    ensures forall i: nat, j: nat :: Matches(r, i, line) && Matches(r, j, line) ==> i == j
  {
    EveryReconSound(steps, r);
  }

  // ---- The automatic match of a session ----

  /** autoMatch records at least half as many pairs as any matching of the same lines could have. */
  lemma AutoMatchHalfOfBest(r: Recon, id: SessionId, unmatched: seq<StatementItem>, candidates: seq<BookItem>,
                            best: seq<Pair>)
    requires id in r.sessions && r.sessions[id].status == SessionStatus.DRAFT
    requires Queried(r, id, unmatched, candidates) && forall s :: s in unmatched ==> s.id in r.lines
    requires IsMatching(best, unmatched, candidates)
    ensures
      var o := AutoMatched(r, id, unmatched, candidates);
      && o.result.Ok? && |best| <= 2 * o.result.value
      && |o.recon.matches| == |r.matches| + o.result.value
  {
    GreedyIsHalfOfBest(unmatched, candidates, best);
    GreedyDrawsFrom(unmatched, candidates);
    RecordAllAdds(r, id, Greedy(unmatched, candidates));
  }

  predicate OnlyMatched(line: StatementLine, after: StatementLine) {
    after == line.(isMatched := after.isMatched) && (line.isMatched ==> after.isMatched)
  }

  lemma {:induction false} RecordAllAdds(r: Recon, session: SessionId, pairs: seq<Pair>)
    requires forall p :: p in pairs ==> p.statement.id in r.lines
    ensures
      var after := RecordAll(r, session, pairs);
      && after.ledger == r.ledger && after.sessions == r.sessions && |after.matches| == |r.matches| + |pairs|
      && r.matches <= after.matches
      && (forall line :: line in r.lines ==> line in after.lines && OnlyMatched(r.lines[line], after.lines[line]))
      && (forall line :: line in after.lines ==> line in r.lines)
      && (forall p :: p in pairs ==> p.statement.id in after.lines && after.lines[p.statement.id].isMatched)
      && (forall p :: p in pairs ==> MatchedIn(after, session, p.book.ref))
    decreases |pairs|
  {
    if pairs != [] {
      var m := AutoMatchOf(session, pairs[0]);
      var next := Recorded(r, m);
      RecordAllAdds(next, session, pairs[1..]);
      var after := RecordAll(r, session, pairs);
      assert next.matches[|r.matches|] == m;
      assert after.matches[|r.matches|] == m;
    }
  }

  /** A second autoMatch right after the first finds nothing and changes nothing. */
  lemma AutoMatchAgain(r: Recon, id: SessionId, unmatched: seq<StatementItem>, candidates: seq<BookItem>,
                       unmatched': seq<StatementItem>, candidates': seq<BookItem>)
    requires id in r.sessions && r.sessions[id].status == SessionStatus.DRAFT
    requires Queried(r, id, unmatched, candidates) && forall s :: s in unmatched ==> s.id in r.lines
    requires Queried(AutoMatched(r, id, unmatched, candidates).recon, id, unmatched', candidates')
    requires forall s :: s in unmatched' ==> s.id in AutoMatched(r, id, unmatched, candidates).recon.lines
    ensures
      var after := AutoMatched(r, id, unmatched, candidates).recon;
      AutoMatched(after, id, unmatched', candidates') == ReconOutcome(after, Ok(0))
  {
    var pairs := Greedy(unmatched, candidates);
    var after := AutoMatched(r, id, unmatched, candidates).recon;
    GreedyDrawsFrom(unmatched, candidates);
    RecordAllAdds(r, id, pairs);
    forall s | s in unmatched'
      ensures s in unmatched && !UsesStatement(pairs, s)
    {
      assert Open(after, id, s.id);
      assert Open(r, id, s.id);
    }
    forall b | b in candidates'
      ensures b in candidates && !UsesBook(pairs, b)
    {
      StillAvailable(r, after, id, b.ref);
      if UsesBook(pairs, b) {
        var k :| 0 <= k < |pairs| && pairs[k].book == b;
      }
    }
    SecondRunMatchesNothing(unmatched, candidates, unmatched', candidates');
  }

  lemma StillAvailable(r: Recon, after: Recon, id: SessionId, ref: LineRef)
    requires id in r.sessions && after.sessions == r.sessions && after.ledger == r.ledger && r.matches <= after.matches
    requires Available(after, id, ref)
    ensures Available(r, id, ref)
  {
  }
}
