/** Two statement lines of 100.00 and one book line of 100.00: two sessions on the statement match both lines to it, and
    the statement is signed off 100.00 away from the books. */
module SharedLine {
  import opened Money
  import opened Sums
  import opened Calendar
  import opened Ledger
  import opened Matching
  import opened BankReconciliation
  import opened ReconciliationRuns
  import opened ReconciliationGap

  const BANK := 1
  const INCOME := 2
  const DAY := Date(2025, 0, 0)

  const MASTER := Master({0}, {(0, BANK), (0, INCOME)})

  const RECEIPT := EntryInput(0, DAY, [LineInput(BANK, 10_000.0, 0.0, NO_DIMENSIONS),
                                       LineInput(INCOME, 0.0, 10_000.0, NO_DIMENSIONS)])

  const RECEIVED := Entry(0, PeriodOf(0, DAY), DAY, POSTED, Numbered(2025, 1),
                          [Line(BANK, 10_000, 0, 0, NO_DIMENSIONS),
                           Line(INCOME, 0, 10_000, 0, NO_DIMENSIONS)], 5, Some(5), None)

  const BOOKS := Ledger([RECEIVED], map[PeriodOf(0, DAY) := OPEN], map[(0, 2025) := 1])

  const BOOK := LineRef(0, 0)

  const SESSION := Session(0, 0, 0, BANK, SessionStatus.DRAFT, 5)

  const CANDIDATES := [BookItem(BOOK, Time(DAY), 10_000, 0)]

  const FIRST := StatementItem(0, Time(DAY), 10_000)
  const SECOND := StatementItem(1, Time(DAY), 10_000)

  function Steps(): seq<ReconStep> {
    [Elsewhere(Step(MASTER, OpPostSystem(RECEIPT, 5))),
     Import({0}, 0, 0, 0, [0, 1], [ItemInput(DAY, 10_000.0), ItemInput(DAY, 10_000.0)]),
     Start(0, SESSION, 5), Start(1, SESSION, 5),
     Auto(0, [FIRST, SECOND], CANDIDATES), Auto(1, [SECOND], CANDIDATES), SignOff(0, 6)]
  }

  /** The statement and both sessions exist; matched says which lines are matched. */
  function Opened(first: bool, second: bool, matches: seq<Match>): Recon {
    Recon(BOOKS, map[0 := Statement(0, 0, [0, 1])],
          map[0 := StatementLine(0, DAY, 10_000, first), 1 := StatementLine(0, DAY, 10_000, second)],
          map[0 := SESSION, 1 := SESSION], matches)
  }

  const MATCHES := [Match(0, 0, BOOK, AUTO, 10_000), Match(1, 1, BOOK, AUTO, 10_000)]

  function Final(): Recon {
    Opened(true, true, MATCHES).(sessions := map[0 := SESSION.(status := SessionStatus.APPROVED), 1 := SESSION])
  }

  lemma ReceiptIsPosted()
    ensures ApplyRecon(NEW_RECON, Steps()[0]) == NEW_RECON.(ledger := BOOKS)
  {
    var x, y := RECEIPT.lines[0], RECEIPT.lines[1];
    assert RECEIPT.lines == [x] + [y] && [x] == [] + [x];
    SumRealAppend([x], y, InputDebit);
    SumRealAppend([x], y, InputCredit);
    SumRealAppend([], x, InputDebit);
    SumRealAppend([], x, InputCredit);
    StoreWhole(10_000);
    StoreWhole(0);
    assert StoreLines(0, RECEIPT.lines) == RECEIVED.lines;
    hide StoreLines, SumReal;
  }

  lemma StatementIsOpened()
    ensures
      var r := NEW_RECON.(ledger := BOOKS);
      && Admissible(r, Steps()[1])
      && ApplyRecon(r, Steps()[1]) == Opened(false, false, []).(sessions := map[])
  {
    StoreWhole(10_000);
    var items := Steps()[1].items;
    assert [0, 1][1..] == [1] && items[1..] == [items[1]] && [1][1..] == [];
  }

  lemma SessionsAreStarted()
    ensures
      var r := Opened(false, false, []).(sessions := map[]);
      && Admissible(r, Steps()[2]) && Admissible(ApplyRecon(r, Steps()[2]), Steps()[3])
      && ApplyRecon(ApplyRecon(r, Steps()[2]), Steps()[3]) == Opened(false, false, [])
  {
  }

  lemma OneCandidate(r: Recon, id: SessionId, ref: LineRef)
    requires r.ledger == BOOKS && id in r.sessions && r.sessions[id] == SESSION
    ensures Available(r, id, ref) <==> ref == BOOK && !MatchedIn(r, id, ref)
    ensures BookItemOf(BOOKS, BOOK) == CANDIDATES[0]
  {
  }

  lemma OneCandidateQueried(r: Recon, id: SessionId, unmatched: seq<StatementItem>)
    requires r.ledger == BOOKS && id in r.sessions && r.sessions[id] == SESSION && !MatchedIn(r, id, BOOK)
    requires DistinctStatements(unmatched)
    requires forall s :: s in unmatched ==> Open(r, id, s.id) && s == ItemOf(s.id, r.lines[s.id])
    requires forall line :: Open(r, id, line) ==> ItemOf(line, r.lines[line]) in unmatched
    ensures Queried(r, id, unmatched, CANDIDATES)
  {
    hide Open;
    forall ref
      ensures Available(r, id, ref) <==> ref == BOOK
    {
      OneCandidate(r, id, ref);
    }
    OneCandidate(r, id, BOOK);
  }

  lemma FirstIsFound()
    ensures Greedy([FIRST, SECOND], CANDIDATES) == [Pair(FIRST, CANDIDATES[0])]
    ensures Greedy([SECOND], CANDIDATES) == [Pair(SECOND, CANDIDATES[0])]
  {
    hide Time;
    assert Compatible(FIRST, CANDIDATES[0]) && Compatible(SECOND, CANDIDATES[0]);
    hide Compatible;
    assert Without(CANDIDATES, 0) == [] && [FIRST, SECOND][1..] == [SECOND] && [SECOND][1..] == [];
    assert FirstFit(SECOND, []) == 0 && Greedy([], []) == [];
    assert Greedy([SECOND], []) == [];
  }

  lemma OneRecorded(r: Recon, id: SessionId, p: Pair)
    requires p.statement.id in r.lines
    ensures RecordAll(r, id, [p]) == Recorded(r, AutoMatchOf(id, p))
  {
    assert [p][1..] == [];
    assert RecordAll(Recorded(r, AutoMatchOf(id, p)), id, []) == Recorded(r, AutoMatchOf(id, p));
  }

  lemma FirstQueried()
    ensures Queried(Opened(false, false, []), 0, [FIRST, SECOND], CANDIDATES)
  {
    var r := Opened(false, false, []);
    assert ItemOf(0, r.lines[0]) == [FIRST, SECOND][0] && ItemOf(1, r.lines[1]) == [FIRST, SECOND][1];
    assert forall line :: Open(r, 0, line) <==> line == 0 || line == 1;
    hide Time;
    OneCandidateQueried(r, 0, [FIRST, SECOND]);
  }

  lemma SecondQueried()
    ensures Queried(Opened(true, false, [MATCHES[0]]), 1, [SECOND], CANDIDATES)
  {
    var r := Opened(true, false, [MATCHES[0]]);
    assert ItemOf(1, r.lines[1]) == [SECOND][0];
    assert forall line :: Open(r, 1, line) <==> line == 1;
    hide Time;
    OneCandidateQueried(r, 1, [SECOND]);
  }

  lemma FirstSessionMatches()
    ensures Admissible(Opened(false, false, []), Steps()[4])
    ensures ApplyRecon(Opened(false, false, []), Steps()[4]) == Opened(true, false, [MATCHES[0]])
  {
    FirstQueried();
    FirstIsFound();
    hide Queried, Greedy, Time, RecordAll;
    OneRecorded(Opened(false, false, []), 0, Pair(FIRST, CANDIDATES[0]));
  }

  lemma SecondSessionMatches()
    ensures Admissible(Opened(true, false, [MATCHES[0]]), Steps()[5])
    ensures ApplyRecon(Opened(true, false, [MATCHES[0]]), Steps()[5]) == Opened(true, true, MATCHES)
  {
    SecondQueried();
    FirstIsFound();
    hide Queried, Greedy, Time, RecordAll;
    OneRecorded(Opened(true, false, [MATCHES[0]]), 1, Pair(SECOND, CANDIDATES[0]));
  }

  lemma StatementIsSignedOff()
    ensures Admissible(Opened(true, true, MATCHES), Steps()[6])
    ensures ApplyRecon(Opened(true, true, MATCHES), Steps()[6]) == Final()
  {
    var r := Opened(true, true, MATCHES);
    assert AllMatched(r, r.statements[0].lines);
    hide AllMatched, MatchedIn, ItemOf;
  }

  lemma ReachesNext(r: Recon, s: ReconStep, rest: seq<ReconStep>, later: Recon)
    requires Admissible(r, s) && Reaches(ApplyRecon(r, s), rest, later)
    ensures Reaches(r, [s] + rest, later)
  {
    hide ApplyRecon, Admissible;
    assert ([s] + rest)[1..] == rest;
  }

  lemma NothingLeft()
    ensures Reaches(Final(), [], Final())
  {
  }

  lemma LastSteps()
    ensures Reaches(Opened(false, false, []), [Steps()[4]] + ([Steps()[5]] + ([Steps()[6]] + [])), Final())
  {
    FirstSessionMatches();
    SecondSessionMatches();
    StatementIsSignedOff();
    NothingLeft();
    hide Reaches, ApplyRecon, Admissible, Opened, Final;
    ReachesNext(Opened(true, true, MATCHES), Steps()[6], [], Final());
    ReachesNext(Opened(true, false, [MATCHES[0]]), Steps()[5], [Steps()[6]] + [], Final());
    ReachesNext(Opened(false, false, []), Steps()[4], [Steps()[5]] + ([Steps()[6]] + []), Final());
  }

  lemma RunIsReached()
    ensures Reaches(NEW_RECON, Steps(), Final())
  {
    var last := [Steps()[4]] + ([Steps()[5]] + ([Steps()[6]] + []));
    assert Steps() == [Steps()[0]] + ([Steps()[1]] + ([Steps()[2]] + ([Steps()[3]] + last)));
    assert Admissible(NEW_RECON, Steps()[0]);
    ReceiptIsPosted();
    StatementIsOpened();
    SessionsAreStarted();
    LastSteps();
    hide Reaches, ApplyRecon, Admissible, Opened, Final;
    var ready := Opened(false, false, []).(sessions := map[]);
    ReachesNext(ApplyRecon(ready, Steps()[2]), Steps()[3], last, Final());
    ReachesNext(ready, Steps()[2], [Steps()[3]] + last, Final());
    ReachesNext(NEW_RECON.(ledger := BOOKS), Steps()[1], [Steps()[2]] + ([Steps()[3]] + last), Final());
    ReachesNext(NEW_RECON, Steps()[0], [Steps()[1]] + ([Steps()[2]] + ([Steps()[3]] + last)), Final());
  }

  lemma FinalMatches()
    ensures MatchOf(Final(), 0) == Some(MATCHES[0]) && MatchOf(Final(), 1) == Some(MATCHES[1])
  {
    assert MATCHES[1..][0] == MATCHES[1];
  }

  lemma FinalTotals()
    ensures
      var r := Final();
      && LinesOf(r, 0) == [0, 1] && StatementTotal(r, [0, 1]) == 20_000 && BooksOf(r, [0, 1]) == [BOOK, BOOK]
      && AutoCount(r, [0, 1]) == 2
  {
    var r := Final();
    FinalMatches();
    hide MatchOf;
    assert [0, 1][1..] == [1] && [1][1..] == [];
    assert BooksOf(r, [1]) == [BOOK] + [] && AutoCount(r, [1]) == 1 && StatementTotal(r, [1]) == 10_000;
  }

  lemma BookCountedOnce()
    ensures NetOnce(BOOKS, [BOOK, BOOK]) == 10_000
  {
    assert NetAt(BOOKS, BOOK) == 10_000;
    hide NetAt;
    assert [BOOK, BOOK][1..] == [BOOK] && [BOOK][1..] == [];
    assert NetOnce(BOOKS, [BOOK]) == 10_000;
  }

  /** Both sessions' matches stand, the statement is signed off without a manual match, its lines add up to 200.00, and
      the one book line they are matched to is 100.00. */
  lemma SignedOffOnOneLine()
    ensures Reaches(NEW_RECON, Steps(), Final())
    ensures 0 in Final().sessions && Final().sessions[0].status == SessionStatus.APPROVED
    ensures forall line :: line in LinesOf(Final(), 0) ==> ByMachine(Final(), line)
    ensures
      var ids := LinesOf(Final(), 0);
      && StatementTotal(Final(), ids) == 20_000 && BooksOf(Final(), ids) == [BOOK, BOOK]
      && NetOnce(Final().ledger, BooksOf(Final(), ids)) == 10_000 && AutoCount(Final(), ids) == 2
  {
    RunIsReached();
    FinalMatches();
    FinalTotals();
    BookCountedOnce();
    hide MatchOf, Reaches, Steps, LinesOf, StatementTotal, BooksOf, NetOnce, AutoCount;
  }
}
