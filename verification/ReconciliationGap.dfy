/** How far the total of a signed-off statement can be from the book lines it was matched to. */
module ReconciliationGap {
  import opened Money
  import opened Ledger
  import opened Kernel
  import opened Matching
  import opened BankReconciliation
  import opened ReconciliationRuns
  import opened ReconciliationSharing

  // ---- Totals ----

  /** The statement lines of a session. */
  function LinesOf(r: Recon, id: SessionId): seq<LineId> {
    if id in r.sessions && r.sessions[id].statement in r.statements then
      r.statements[r.sessions[id].statement].lines
    else []
  }

  predicate DistinctLines(ids: seq<LineId>) {
    forall j, k :: 0 <= j < k < |ids| ==> ids[j] != ids[k]
  }

  function FirstFor(matches: seq<Match>, line: LineId): Option<Match> {
    if matches == [] then None
    else if matches[0].line == line then Some(matches[0])
    else FirstFor(matches[1..], line)
  }

  function MatchOf(r: Recon, line: LineId): Option<Match> {
    FirstFor(r.matches, line)
  }

  function AmountOf(r: Recon, line: LineId): int {
    if line in r.lines then r.lines[line].amount else 0
  }

  function NetAt(l: Ledger, ref: LineRef): int {
    if ValidRef(l, ref) then NetOf(LineAt(l, ref)) else 0
  }

  function StatementTotal(r: Recon, ids: seq<LineId>): int {
    if ids == [] then 0 else AmountOf(r, ids[0]) + StatementTotal(r, ids[1..])
  }

  /** The book lines matched to these statement lines. */
  function BooksOf(r: Recon, ids: seq<LineId>): seq<LineRef> {
    if ids == [] then []
    else (match MatchOf(r, ids[0]) case Some(m) => [m.book] case None => []) + BooksOf(r, ids[1..])
  }

  /** Debits minus credits of these book lines, each counted once. */
  function NetOnce(l: Ledger, refs: seq<LineRef>): int {
    if refs == [] then 0 else (if refs[0] in refs[1..] then 0 else NetAt(l, refs[0])) + NetOnce(l, refs[1..])
  }

  /** What the repetitions would add. */
  function NetRepeated(l: Ledger, refs: seq<LineRef>): int {
    if refs == [] then 0 else (if refs[0] in refs[1..] then NetAt(l, refs[0]) else 0) + NetRepeated(l, refs[1..])
  }

  function AutoCount(r: Recon, ids: seq<LineId>): nat {
    if ids == [] then 0
    else
      (match MatchOf(r, ids[0]) case Some(m) => if m.kind == AUTO then 1 else 0 case None => 0)
      + AutoCount(r, ids[1..])
  }

  predicate NoRepeats(refs: seq<LineRef>) {
    forall j, k :: 0 <= j < k < |refs| ==> refs[j] != refs[k]
  }

  lemma {:induction false} NothingRepeated(l: Ledger, refs: seq<LineRef>)
    requires NoRepeats(refs)
    ensures NetRepeated(l, refs) == 0
  {
    if refs != [] {
      NothingRepeated(l, refs[1..]);
    }
  }

  // ---- The gap ----

  /** The line was matched by the machine or by an adjustment against another account, is worth more than a cent, and
      its book line has no negative side. */
  predicate ByMachine(r: Recon, line: LineId) {
    && MatchOf(r, line).Some?
    && var m := MatchOf(r, line).value;
      && Machine(m) && IntAbs(AmountOf(r, line)) > AMOUNT_TOLERANCE
      && (ValidRef(r.ledger, m.book) ==>
            && LineAt(r.ledger, m.book).debit >= 0 && LineAt(r.ledger, m.book).credit >= 0
            && (m.kind == ADJUSTMENT ==> AloneOnAccount(r.ledger, m.book)))
  }

  lemma {:induction false} FirstIsRecord(matches: seq<Match>, line: LineId, i: nat)
    requires i < |matches| && matches[i].line == line
    ensures FirstFor(matches, line).Some? && FirstFor(matches, line).value.line == line
    ensures exists k :: 0 <= k < |matches| && matches[k] == FirstFor(matches, line).value
  {
    if matches[0].line != line {
      FirstIsRecord(matches[1..], line, i - 1);
      var k :| 0 <= k < |matches[1..]| && matches[1..][k] == FirstFor(matches, line).value;
      assert matches[k + 1] == FirstFor(matches, line).value;
    } else {
      assert matches[0] == FirstFor(matches, line).value;
    }
  }

  /** The record of a matched line is in the table, and fits. */
  lemma MatchOfFits(r: Recon, line: LineId)
    requires MatchesSound(r) && line in r.lines && r.lines[line].isMatched
    ensures MatchOf(r, line).Some? && MatchOf(r, line).value.line == line && MatchFits(r, MatchOf(r, line).value)
    ensures MatchOf(r, line).value in r.matches
  {
    assert HasMatch(r, line);
    var i: nat :| Matches(r, i, line);
    FirstIsRecord(r.matches, line, i);
    var k :| 0 <= k < |r.matches| && r.matches[k] == MatchOf(r, line).value;
  }

  /** The statement amount and its book line differ by a cent at most, and only for an automatic match. */
  predicate SmallGap(r: Recon, line: LineId) {
    match MatchOf(r, line)
    case None => false
    case Some(m) => IntAbs(AmountOf(r, line) - NetAt(r.ledger, m.book)) <= if m.kind == AUTO then 1 else 0
  }

  lemma OneLineGap(r: Recon, line: LineId)
    requires PeriodsSound(r.ledger) && MatchesSound(r) && line in r.lines && r.lines[line].isMatched
    requires ByMachine(r, line)
    ensures SmallGap(r, line)
  {
    MatchOfFits(r, line);
    var ref := MatchOf(r, line).value.book;
    hide MatchesSound, MatchOf;
    assert Settled(r.ledger, r.ledger.entries[ref.entry]);
    assert LineAt(r.ledger, ref) in r.ledger.entries[ref.entry].lines;
  }

  lemma {:induction false} GapBound(r: Recon, ids: seq<LineId>)
    requires forall line :: line in ids ==> SmallGap(r, line)
    ensures
      var books := BooksOf(r, ids);
      IntAbs(StatementTotal(r, ids) - NetOnce(r.ledger, books) - NetRepeated(r.ledger, books)) <= AutoCount(r, ids)
  {
    if ids != [] {
      assert ids[0] in ids && SmallGap(r, ids[0]);
      GapBound(r, ids[1..]);
      hide NetAt, MatchOf, AmountOf;
      var books := BooksOf(r, ids);
      assert books[0] == MatchOf(r, ids[0]).value.book && books[1..] == BooksOf(r, ids[1..]);
    }
  }

  // ---- Sharing within a statement ----

  lemma {:induction false} BooksAt(r: Recon, ids: seq<LineId>, k: nat)
    requires k < |ids| && forall line :: line in ids ==> MatchOf(r, line).Some?
    ensures |BooksOf(r, ids)| == |ids| && BooksOf(r, ids)[k] == MatchOf(r, ids[k]).value.book
  {
    hide MatchOf;
    var rest := ids[1..];
    if rest != [] {
      BooksAt(r, rest, if k == 0 then 0 else k - 1);
    }
  }

  /** Two lines matched in different sessions have different book lines. */
  predicate SessionsApart(r: Recon, x: LineId, y: LineId) {
    MatchOf(r, x).Some? && MatchOf(r, y).Some? && MatchOf(r, x).value.session != MatchOf(r, y).value.session ==>
      MatchOf(r, x).value.book != MatchOf(r, y).value.book
  }

  /** Two lines that the machine matched in one session have different book lines. */
  lemma SameSessionApart(r: Recon, x: LineId, y: LineId)
    requires MatchesSound(r) && SessionDistinct(r) && x != y
    requires x in r.lines && r.lines[x].isMatched && y in r.lines && r.lines[y].isMatched
    requires ByMachine(r, x) && ByMachine(r, y)
    ensures MatchOf(r, x).Some? && MatchOf(r, y).Some?
    ensures MatchOf(r, x).value.book == MatchOf(r, y).value.book ==>
          MatchOf(r, x).value.session != MatchOf(r, y).value.session
  {
    MatchOfFits(r, x);
    MatchOfFits(r, y);
    hide MatchesSound, MatchFits, MatchOf;
    var m, n := MatchOf(r, x).value, MatchOf(r, y).value;
    var i :| 0 <= i < |r.matches| && r.matches[i] == m;
    var j :| 0 <= j < |r.matches| && r.matches[j] == n;
    assert i < j ==> Apart(r.matches[i], r.matches[j]);
    assert j < i ==> Apart(r.matches[j], r.matches[i]);
  }

  lemma BooksApart(r: Recon, ids: seq<LineId>)
    requires MatchesSound(r) && SessionDistinct(r) && AllMatched(r, ids)
    requires DistinctLines(ids)
    requires forall line :: line in ids ==> ByMachine(r, line)
    ensures NoRepeats(BooksOf(r, ids)) <==> forall x, y :: x in ids && y in ids ==> SessionsApart(r, x, y)
  {
    forall line | line in ids
      ensures MatchOf(r, line).Some?
    {
      MatchOfFits(r, line);
    }
    hide MatchOf, ByMachine, MatchesSound, SessionDistinct;
    var books := BooksOf(r, ids);
    forall j, k | 0 <= j < k < |ids|
      ensures |books| == |ids| && (books[j] != books[k] <==> SessionsApart(r, ids[j], ids[k]))
    {
      BooksAt(r, ids, j);
      BooksAt(r, ids, k);
      SameSessionApart(r, ids[j], ids[k]);
    }
    if ids != [] {
      BooksAt(r, ids, 0);
    }
    BooksApartBy(r, ids, books);
  }

  lemma BooksApartBy(r: Recon, ids: seq<LineId>, books: seq<LineRef>)
    requires |books| == |ids|
    requires forall j, k :: 0 <= j < k < |ids| ==> (books[j] != books[k] <==> SessionsApart(r, ids[j], ids[k]))
    ensures NoRepeats(books) <==> forall x, y :: x in ids && y in ids ==> SessionsApart(r, x, y)
  {
    hide MatchOf;
    if NoRepeats(books) {
      forall x, y | x in ids && y in ids
        ensures SessionsApart(r, x, y)
      {
        var j :| 0 <= j < |ids| && ids[j] == x;
        var k :| 0 <= k < |ids| && ids[k] == y;
        assert j < k ==> SessionsApart(r, ids[j], ids[k]);
        assert k < j ==> SessionsApart(r, ids[k], ids[j]);
      }
    }
  }

  lemma ApprovedIsMatched(r: Recon, id: SessionId)
    requires ReconSound(r) && id in r.sessions && r.sessions[id].status == SessionStatus.APPROVED
    ensures AllMatched(r, LinesOf(r, id))
    ensures DistinctLines(LinesOf(r, id))
  {
    assert SessionSound(r, id) && StatementSound(r, r.sessions[id].statement);
  }

  lemma ApprovedParts(r: Recon, id: SessionId)
    requires ReconSound(r) && id in r.sessions && r.sessions[id].status == SessionStatus.APPROVED
    ensures PeriodsSound(r.ledger) && MatchesSound(r) && SessionDistinct(r) && AllMatched(r, LinesOf(r, id))
    ensures DistinctLines(LinesOf(r, id))
  {
    ApprovedIsMatched(r, id);
    hide MatchesSound, SessionDistinct;
  }

  lemma MatchedGap(r: Recon, ids: seq<LineId>)
    requires PeriodsSound(r.ledger) && MatchesSound(r) && AllMatched(r, ids)
    requires forall line :: line in ids ==> ByMachine(r, line)
    ensures
      var books := BooksOf(r, ids);
      && IntAbs(StatementTotal(r, ids) - NetOnce(r.ledger, books) - NetRepeated(r.ledger, books)) <= AutoCount(r, ids)
      && (NoRepeats(books) ==> NetRepeated(r.ledger, books) == 0)
      && (NoRepeats(books) ==> IntAbs(StatementTotal(r, ids) - NetOnce(r.ledger, books)) <= AutoCount(r, ids))
  {
    hide ByMachine, SmallGap, NoRepeats, PeriodsSound, MatchesSound;
    forall line | line in ids
      ensures SmallGap(r, line)
    {
      OneLineGap(r, line);
    }
    GapBound(r, ids);
    hide BooksOf, StatementTotal, NetOnce, NetRepeated, AutoCount;
    if NoRepeats(BooksOf(r, ids)) {
      NothingRepeated(r.ledger, BooksOf(r, ids));
    }
  }

  /** The statement lines that the bound is about. */
  function MachineLines(r: Recon, ids: seq<LineId>): seq<LineId> {
    if ids == [] then [] else (if ByMachine(r, ids[0]) then [ids[0]] else []) + MachineLines(r, ids[1..])
  }

  lemma {:induction false} MachineLinesAre(r: Recon, ids: seq<LineId>)
    ensures forall line :: line in MachineLines(r, ids) <==> line in ids && ByMachine(r, line)
    ensures (forall line :: line in ids ==> ByMachine(r, line)) ==> MachineLines(r, ids) == ids
  {
    hide ByMachine;
    if ids != [] {
      MachineLinesAre(r, ids[1..]);
      assert ids == [ids[0]] + ids[1..];
    }
  }

  lemma DistinctRest(ids: seq<LineId>)
    requires ids != [] && DistinctLines(ids)
    ensures ids[0] !in ids[1..] && DistinctLines(ids[1..])
  {
  }

  lemma DistinctWith(line: LineId, rest: seq<LineId>)
    requires line !in rest && DistinctLines(rest)
    ensures DistinctLines([line] + rest)
  {
  }

  lemma {:induction false} MachineLinesDistinct(r: Recon, ids: seq<LineId>)
    requires DistinctLines(ids)
    ensures DistinctLines(MachineLines(r, ids))
  {
    hide ByMachine, DistinctLines;
    if ids != [] {
      DistinctRest(ids);
      MachineLinesDistinct(r, ids[1..]);
      MachineLinesAre(r, ids[1..]);
      var rest := MachineLines(r, ids[1..]);
      DistinctWith(ids[0], rest);
      assert [] + rest == rest;
    }
  }

  /** In a signed-off session, the total of the statement lines matched by the machine or adjusted differs from their
      book lines, each counted as often as it was matched, by at most a cent for each automatic match. It differs by no
      more from the book lines counted once when none repeats, which is so exactly when no two of the lines matched in
      different sessions have the same book line. */
  lemma SignedOffGap(steps: seq<ReconStep>, r: Recon, id: SessionId)
    requires Reaches(NEW_RECON, steps, r) && id in r.sessions && r.sessions[id].status == SessionStatus.APPROVED
    ensures
      var ids := MachineLines(r, LinesOf(r, id));
      var books := BooksOf(r, ids);
      && IntAbs(StatementTotal(r, ids) - NetOnce(r.ledger, books) - NetRepeated(r.ledger, books)) <= AutoCount(r, ids)
      && (NoRepeats(books) ==> IntAbs(StatementTotal(r, ids) - NetOnce(r.ledger, books)) <= AutoCount(r, ids))
      && (NoRepeats(books) <==> forall x, y :: x in ids && y in ids ==> SessionsApart(r, x, y))
    ensures (forall line :: line in LinesOf(r, id) ==> ByMachine(r, line)) ==>
          MachineLines(r, LinesOf(r, id)) == LinesOf(r, id)
  {
    hide *;
    EveryReconSound(steps, r);
    ApprovedParts(r, id);
    MachineLinesAre(r, LinesOf(r, id));
    MachineLinesDistinct(r, LinesOf(r, id));
    StillMatched(r, LinesOf(r, id), MachineLines(r, LinesOf(r, id)));
    MatchedGap(r, MachineLines(r, LinesOf(r, id)));
    BooksApart(r, MachineLines(r, LinesOf(r, id)));
  }

  lemma StillMatched(r: Recon, ids: seq<LineId>, some: seq<LineId>)
    requires AllMatched(r, ids) && forall line :: line in some ==> line in ids
    ensures AllMatched(r, some)
  {
  }

  /** So that total is within a cent a match of the distinct book lines when no automatic match of the run had a risky
      pair before it. */
  lemma GapWhenNeverRisky(steps: seq<ReconStep>, r: Recon, id: SessionId)
    requires Reaches(NEW_RECON, steps, r) && id in r.sessions && r.sessions[id].status == SessionStatus.APPROVED
    requires NeverRisky(NEW_RECON, steps)
    ensures
      var ids := MachineLines(r, LinesOf(r, id));
      var books := BooksOf(r, ids);
      NoRepeats(books) && IntAbs(StatementTotal(r, ids) - NetOnce(r.ledger, books)) <= AutoCount(r, ids)
  {
    hide *;
    SignedOffGap(steps, r, id);
    RunSharesExactly(steps, r);
    EveryReconSound(steps, r);
    ApprovedParts(r, id);
    var ids := MachineLines(r, LinesOf(r, id));
    MachineLinesAre(r, LinesOf(r, id));
    StillMatched(r, LinesOf(r, id), ids);
    forall x, y | x in ids && y in ids
      ensures SessionsApart(r, x, y)
    {
      MatchedLine(r, ids, x);
      MatchedLine(r, ids, y);
      FreeSessionsApart(r, x, y);
    }
  }

  lemma MatchedLine(r: Recon, ids: seq<LineId>, line: LineId)
    requires AllMatched(r, ids) && line in ids
    ensures line in r.lines && r.lines[line].isMatched
  {
  }

  lemma FreeSessionsApart(r: Recon, x: LineId, y: LineId)
    requires MatchesSound(r) && ShareFree(r.matches) && ByMachine(r, x) && ByMachine(r, y)
    requires x in r.lines && r.lines[x].isMatched && y in r.lines && r.lines[y].isMatched
    ensures SessionsApart(r, x, y)
  {
    MatchOfFits(r, x);
    MatchOfFits(r, y);
    hide MatchesSound, MatchFits, MatchOf;
    var m, n := MatchOf(r, x).value, MatchOf(r, y).value;
    var i :| 0 <= i < |r.matches| && r.matches[i] == m;
    var j :| 0 <= j < |r.matches| && r.matches[j] == n;
  }
}
