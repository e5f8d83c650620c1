/** Which automatic matches make two sessions share a book line. */
module ReconciliationSharing {
  import opened Money
  import opened Sums
  import opened Ledger
  import opened Matching
  import opened BankReconciliation
  import opened ReconciliationRuns

  // ---- Which book lines are shared ----

  /** In every reachable state, a session's automatic matches and adjustments name pairwise different book lines. */
  lemma OneBookLinePerSession(steps: seq<ReconStep>, r: Recon, i: nat, j: nat)
    requires Reaches(NEW_RECON, steps, r) && i < j < |r.matches| && Machine(r.matches[i]) && Machine(r.matches[j])
    requires r.matches[i].session == r.matches[j].session
    ensures r.matches[i].book != r.matches[j].book
  {
    EveryReconSound(steps, r);
    assert Apart(r.matches[i], r.matches[j]);
  }

  /** No two automatic matches or adjustments, of any sessions, name the same book line. */
  predicate ShareFree(matches: seq<Match>) {
    forall i, j :: 0 <= i < j < |matches| && Machine(matches[i]) && Machine(matches[j]) ==>
        matches[i].book != matches[j].book
  }

  predicate Named(matches: seq<Match>, book: LineRef) {
    exists i :: 0 <= i < |matches| && Machine(matches[i]) && matches[i].book == book
  }

  /** An automatic match of a draft session that takes a book line which a session has already named. */
  predicate TakesNamed(r: Recon, s: ReconStep) {
    && s.Auto? && s.id in r.sessions && r.sessions[s.id].status == SessionStatus.DRAFT
    && exists p :: p in Greedy(s.unmatched, s.candidates) && Named(r.matches, p.book.ref)
  }

  lemma Appended(matches: seq<Match>, m: Match)
    requires ShareFree(matches)
    ensures ShareFree(matches + [m]) <==> !(Machine(m) && Named(matches, m.book))
  {
    var after := matches + [m];
    assert after[|matches|] == m;
    if Machine(m) && Named(matches, m.book) {
      var i :| 0 <= i < |matches| && Machine(matches[i]) && matches[i].book == m.book;
      assert after[i] == matches[i];
    }
  }

  lemma SharedStays(matches: seq<Match>, later: seq<Match>)
    requires matches <= later && !ShareFree(matches)
    ensures !ShareFree(later)
  {
    var i, j :|
      0 <= i < j < |matches| && Machine(matches[i]) && Machine(matches[j]) && matches[i].book == matches[j].book;
    assert later[i] == matches[i] && later[j] == matches[j];
  }

  predicate DistinctBookRefs(pairs: seq<Pair>) {
    forall j, k :: 0 <= j < k < |pairs| ==> pairs[j].book.ref != pairs[k].book.ref
  }

  lemma {:induction false} RecordAllShares(r: Recon, session: SessionId, pairs: seq<Pair>)
    requires ShareFree(r.matches) && DistinctBookRefs(pairs)
    requires forall p :: p in pairs ==> p.statement.id in r.lines
    ensures r.matches <= RecordAll(r, session, pairs).matches
    ensures ShareFree(RecordAll(r, session, pairs).matches) <==> !exists p :: p in pairs && Named(r.matches, p.book.ref)
    decreases |pairs|
  {
    RecordAllAdds(r, session, pairs);
    if pairs != [] {
      var m := AutoMatchOf(session, pairs[0]);
      var next := Recorded(r, m);
      Appended(r.matches, m);
      RecordAllAdds(next, session, pairs[1..]);
      hide ShareFree;
      if Named(r.matches, m.book) {
        assert pairs[0] in pairs;
        SharedStays(next.matches, RecordAll(r, session, pairs).matches);
      } else {
        RecordAllShares(next, session, pairs[1..]);
        forall p | p in pairs[1..]
          ensures Named(next.matches, p.book.ref) <==> Named(r.matches, p.book.ref)
        {
          NamedNext(r.matches, m, p.book.ref);
        }
        SomeOf(pairs, r.matches, next.matches);
      }
    }
  }

  lemma NamedNext(matches: seq<Match>, m: Match, book: LineRef)
    requires m.book != book
    ensures Named(matches + [m], book) <==> Named(matches, book)
  {
    var after := matches + [m];
    if Named(matches, book) {
      var i :| 0 <= i < |matches| && Machine(matches[i]) && matches[i].book == book;
      assert after[i] == matches[i];
    }
  }

  lemma SomeOf(pairs: seq<Pair>, matches: seq<Match>, later: seq<Match>)
    requires pairs != [] && !Named(matches, pairs[0].book.ref)
    requires forall p :: p in pairs[1..] ==> (Named(later, p.book.ref) <==> Named(matches, p.book.ref))
    ensures (exists p :: p in pairs[1..] && Named(later, p.book.ref))
            <==> (exists p :: p in pairs && Named(matches, p.book.ref))
  {
    hide Named;
    assert pairs == [pairs[0]] + pairs[1..];
  }

  lemma GreedyBooksApart(r: Recon, s: ReconStep)
    requires s.Auto? && Admissible(r, s) && s.id in r.sessions
    ensures DistinctBookRefs(Greedy(s.unmatched, s.candidates))
  {
    var pairs := Greedy(s.unmatched, s.candidates);
    GreedyIsMatching(s.unmatched, s.candidates);
    hide Greedy, Compatible, Available, Open;
    forall j, k | 0 <= j < k < |pairs|
      ensures pairs[j].book.ref != pairs[k].book.ref
    {
      assert pairs[j].book in s.candidates && pairs[k].book in s.candidates;
    }
  }

  /** The steps other than an automatic match append at most one record, which names a new book line or was chosen by
      hand. */
  lemma OtherStepShares(r: Recon, s: ReconStep)
    requires ReconSound(r) && Admissible(r, s) && !s.Auto? && ShareFree(r.matches)
    ensures ShareFree(ApplyRecon(r, s).matches)
  {
    match s
    case Manual(id, line, ref) =>
      if ManuallyMatched(r, id, line, ref).result.Ok? {
        Appended(r.matches, Match(id, line, ref, MANUAL, IntAbs(r.lines[line].amount)));
      }
    case Adjust(master, id, line, kind, contra, user, contraFirst) =>
      if Adjusted(r, master, id, line, kind, contra, user, contraFirst).result.Ok? {
        AdjustmentShares(r, s);
      }
    case _ =>
  }

  lemma AdjustmentShares(r: Recon, s: ReconStep)
    requires ReconSound(r) && s.Adjust? && ShareFree(r.matches)
    requires Adjusted(r, s.master, s.id, s.line, s.kind, s.contra, s.user, s.contraFirst).result.Ok?
    ensures ShareFree(ApplyRecon(r, s).matches)
  {
    var m := ApplyRecon(r, s).matches[|r.matches|];
    assert ApplyRecon(r, s).matches == r.matches + [m] && m.book.entry >= |r.ledger.entries|;
    hide ShareFree, Adjusted, ApplyRecon;
    forall i | 0 <= i < |r.matches|
      ensures r.matches[i].book != m.book
    {
      assert MatchFits(r, r.matches[i]);
    }
    Appended(r.matches, m);
  }

  /** One call makes two choices of the machine share a book line exactly when one of its pairs has a named one. */
  lemma StepShareFree(r: Recon, s: ReconStep)
    requires ReconSound(r) && Admissible(r, s) && ShareFree(r.matches)
    ensures ShareFree(ApplyRecon(r, s).matches) <==> !TakesNamed(r, s)
  {
    if s.Auto? {
      if s.id in r.sessions && r.sessions[s.id].status == SessionStatus.DRAFT {
        GreedyDrawsFrom(s.unmatched, s.candidates);
        GreedyBooksApart(r, s);
        RecordAllShares(r, s.id, Greedy(s.unmatched, s.candidates));
      }
    } else {
      OtherStepShares(r, s);
    }
  }

  lemma StepKeepsMatches(r: Recon, s: ReconStep)
    requires Admissible(r, s)
    ensures r.matches <= ApplyRecon(r, s).matches
  {
    match s
    case Auto(id, unmatched, candidates) =>
      if id in r.sessions && r.sessions[id].status == SessionStatus.DRAFT {
        GreedyDrawsFrom(unmatched, candidates);
        RecordAllAdds(r, id, Greedy(unmatched, candidates));
      }
    case _ =>
  }

  lemma {:induction false} SharedToTheEnd(r: Recon, steps: seq<ReconStep>, later: Recon)
    requires Reaches(r, steps, later) && !ShareFree(r.matches)
    ensures !ShareFree(later.matches)
    decreases |steps|
  {
    hide ShareFree, ApplyRecon, Admissible;
    if steps != [] {
      StepKeepsMatches(r, steps[0]);
      SharedStays(r.matches, ApplyRecon(r, steps[0]).matches);
      SharedToTheEnd(ApplyRecon(r, steps[0]), steps[1..], later);
    }
  }

  // ---- Before the call ----

  /** An open statement line and a book line that the session has not used fit each other, and a session has named the
      book line. */
  predicate Risky(r: Recon, id: SessionId, line: LineId, ref: LineRef)
    requires id in r.sessions
  {
    && Open(r, id, line) && Available(r, id, ref) && Named(r.matches, ref)
    && Compatible(ItemOf(line, r.lines[line]), BookItemOf(r.ledger, ref))
  }

  /** The session can be matched, and has a risky pair. */
  ghost predicate MayShare(r: Recon, id: SessionId) {
    && id in r.sessions && r.sessions[id].status == SessionStatus.DRAFT
    && exists line, ref :: Risky(r, id, line, ref)
  }

  lemma TakenWasRisky(r: Recon, s: ReconStep)
    requires Admissible(r, s) && TakesNamed(r, s)
    ensures MayShare(r, s.id)
  {
    hide Compatible, Named, Greedy, Available, Open;
    GreedyDrawsFrom(s.unmatched, s.candidates);
    var p :| p in Greedy(s.unmatched, s.candidates) && Named(r.matches, p.book.ref);
    assert Risky(r, s.id, p.statement.id, p.book.ref);
  }

  /** The element at i, and then the others. */
  function Foremost<T>(s: seq<T>, i: nat): (moved: seq<T>)
    requires i < |s|
    ensures |moved| == |s|
  {
    [s[i]] + Without(s, i)
  }

  lemma ForemostHolds<T>(s: seq<T>, i: nat)
    requires i < |s|
    ensures forall x :: x in Foremost(s, i) <==> x in s
    ensures (forall j, k :: 0 <= j < k < |s| ==> s[j] != s[k]) ==>
              forall j, k :: 0 <= j < k < |s| ==> Foremost(s, i)[j] != Foremost(s, i)[k]
  {
    forall x
      ensures x in Foremost(s, i) <==> x in s
    {
      if x in s {
        var k :| 0 <= k < |s| && s[k] == x;
        assert Foremost(s, i)[if k == i then 0 else if k < i then k + 1 else k] == x;
      }
    }
  }

  /** Another order of the same answers is an answer too. */
  lemma ReorderedAnswers(r: Recon, s: ReconStep, i: nat, j: nat)
    requires s.Auto? && Admissible(r, s) && i < |s.unmatched| && j < |s.candidates|
    ensures Admissible(r, Auto(s.id, Foremost(s.unmatched, i), Foremost(s.candidates, j)))
  {
    hide Foremost, Open, Available;
    ForemostHolds(s.unmatched, i);
    ForemostHolds(s.candidates, j);
  }

  lemma RiskyParts(r: Recon, s: ReconStep, line: LineId, ref: LineRef) returns (i: nat, j: nat)
    requires s.Auto? && Admissible(r, s) && s.id in r.sessions && Risky(r, s.id, line, ref)
    ensures i < |s.unmatched| && j < |s.candidates|
    ensures Compatible(s.unmatched[i], s.candidates[j]) && Named(r.matches, s.candidates[j].ref)
  {
    hide Compatible, Named;
    i :| 0 <= i < |s.unmatched| && s.unmatched[i] == ItemOf(line, r.lines[line]);
    j :| 0 <= j < |s.candidates| && s.candidates[j] == BookItemOf(r.ledger, ref);
  }

  /** Whatever the queries answer, there is an order of it in which a risky pair is taken. */
  lemma RiskyIsTaken(r: Recon, s: ReconStep, line: LineId, ref: LineRef) returns (t: ReconStep)
    requires s.Auto? && Admissible(r, s) && s.id in r.sessions && r.sessions[s.id].status == SessionStatus.DRAFT
    requires Risky(r, s.id, line, ref)
    ensures t.Auto? && t.id == s.id && Admissible(r, t) && TakesNamed(r, t)
  {
    hide Compatible, Named, Greedy, Admissible, Risky;
    var i, j := RiskyParts(r, s, line, ref);
    t := Auto(s.id, Foremost(s.unmatched, i), Foremost(s.candidates, j));
    ReorderedAnswers(r, s, i, j);
    FirstPair(t.unmatched, t.candidates);
  }

  lemma FirstPair(unmatched: seq<StatementItem>, candidates: seq<BookItem>)
    requires unmatched != [] && candidates != [] && Compatible(unmatched[0], candidates[0])
    ensures Pair(unmatched[0], candidates[0]) in Greedy(unmatched, candidates)
  {
    hide Compatible;
    assert FirstFit(unmatched[0], candidates) == 0;
    assert Greedy(unmatched, candidates)[0] == Pair(unmatched[0], candidates[0]);
  }

  // ---- The queries always have an answer ----

  lemma {:induction false} ListOf<T>(elements: set<T>) returns (s: seq<T>)
    ensures forall x :: x in s <==> x in elements
    ensures forall j, k :: 0 <= j < k < |s| ==> s[j] != s[k]
    decreases elements
  {
    s := [];
    if elements != {} {
      var x :| x in elements;
      var rest := ListOf(elements - {x});
      s := [x] + rest;
    }
  }

  function ItemsOf(r: Recon, lines: seq<LineId>): (items: seq<StatementItem>)
    requires forall line :: line in lines ==> line in r.lines
    ensures |items| == |lines|
    ensures forall k :: 0 <= k < |lines| ==> items[k] == ItemOf(lines[k], r.lines[lines[k]])
  {
    seq(|lines|, k requires 0 <= k < |lines| => assert lines[k] in lines; ItemOf(lines[k], r.lines[lines[k]]))
  }

  function BookItemsOf(l: Ledger, refs: seq<LineRef>): (items: seq<BookItem>)
    requires forall ref :: ref in refs ==> ValidRef(l, ref)
    ensures |items| == |refs|
    ensures forall k :: 0 <= k < |refs| ==> ValidRef(l, refs[k]) && items[k] == BookItemOf(l, refs[k])
  {
    seq(|refs|, k requires 0 <= k < |refs| => assert refs[k] in refs; BookItemOf(l, refs[k]))
  }

  lemma OpenLines(r: Recon, id: SessionId) returns (lines: seq<LineId>)
    requires id in r.sessions
    ensures forall line :: line in lines <==> Open(r, id, line)
    ensures forall j, k :: 0 <= j < k < |lines| ==> lines[j] != lines[k]
  {
    lines := ListOf(set line | line in r.lines && Open(r, id, line));
  }

  lemma AvailableRefs(r: Recon, id: SessionId) returns (refs: seq<LineRef>)
    requires id in r.sessions
    ensures forall ref :: ref in refs <==> Available(r, id, ref)
    ensures forall j, k :: 0 <= j < k < |refs| ==> refs[j] != refs[k]
  {
    var entries := r.ledger.entries;
    var all := set e: EntryId, k: nat | 0 <= e < |entries| && 0 <= k < |entries[e].lines| :: LineRef(e, k);
    forall ref | Available(r, id, ref)
      ensures ref in all
    {
      assert ref == LineRef(ref.entry, ref.index);
    }
    refs := ListOf(set ref | ref in all && Available(r, id, ref));
  }

  lemma ListsAnswer(r: Recon, id: SessionId, lines: seq<LineId>, refs: seq<LineRef>)
    requires id in r.sessions
    requires forall line :: line in lines <==> Open(r, id, line)
    requires forall ref :: ref in refs <==> Available(r, id, ref)
    requires forall j, k :: 0 <= j < k < |lines| ==> lines[j] != lines[k]
    requires forall j, k :: 0 <= j < k < |refs| ==> refs[j] != refs[k]
    ensures forall line :: line in lines ==> line in r.lines
    ensures forall ref :: ref in refs ==> ValidRef(r.ledger, ref)
    ensures Queried(r, id, ItemsOf(r, lines), BookItemsOf(r.ledger, refs))
  {
    assert forall line :: line in lines ==> Open(r, id, line);
    assert forall ref :: ref in refs ==> Available(r, id, ref) && ValidRef(r.ledger, ref);
    hide Open, Available;
    assert forall line :: Open(r, id, line) ==> line in r.lines by { OpenInLines(r, id); }
    var items, books := ItemsOf(r, lines), BookItemsOf(r.ledger, refs);
    forall line | Open(r, id, line)
      ensures ItemOf(line, r.lines[line]) in items
    {
      var k :| 0 <= k < |lines| && lines[k] == line;
      assert items[k] == ItemOf(line, r.lines[line]);
    }
    forall ref | Available(r, id, ref)
      ensures ValidRef(r.ledger, ref) && BookItemOf(r.ledger, ref) in books
    {
      var k :| 0 <= k < |refs| && refs[k] == ref;
      assert books[k] == BookItemOf(r.ledger, ref);
    }
  }

  lemma OpenInLines(r: Recon, id: SessionId)
    requires id in r.sessions
    ensures forall line :: Open(r, id, line) ==> line in r.lines
  {
  }

  lemma AutoIsAdmissible(r: Recon, id: SessionId) returns (s: ReconStep)
    ensures s.Auto? && s.id == id && Admissible(r, s)
  {
    s := Auto(id, [], []);
    if id in r.sessions {
      var lines := OpenLines(r, id);
      var refs := AvailableRefs(r, id);
      ListsAnswer(r, id, lines, refs);
      s := Auto(id, ItemsOf(r, lines), BookItemsOf(r.ledger, refs));
    }
  }

  // ---- The exact condition of a call ----

  /** autoMatch shares no book line, in whatever order its two queries answer. */
  ghost predicate NeverShares(r: Recon, id: SessionId) {
    forall unmatched, candidates :: Admissible(r, Auto(id, unmatched, candidates)) ==>
      ShareFree(ApplyRecon(r, Auto(id, unmatched, candidates)).matches)
  }

  /** An automatic match keeps the sessions off each other's book lines, whatever order the queries answer in, exactly
      when no open line of the statement fits a book line that another session has named. */
  lemma AutoMatchSharesExactly(r: Recon, id: SessionId)
    requires ReconSound(r) && ShareFree(r.matches)
    ensures NeverShares(r, id) <==> !MayShare(r, id)
  {
    hide ReconSound, ShareFree, ApplyRecon, TakesNamed, Risky;
    if MayShare(r, id) {
      var line, ref :| Risky(r, id, line, ref);
      var s := AutoIsAdmissible(r, id);
      var t := RiskyIsTaken(r, s, line, ref);
      StepShareFree(r, t);
      assert t == Auto(id, t.unmatched, t.candidates);
    } else {
      forall unmatched, candidates | Admissible(r, Auto(id, unmatched, candidates))
        ensures ShareFree(ApplyRecon(r, Auto(id, unmatched, candidates)).matches)
      {
        var s := Auto(id, unmatched, candidates);
        StepShareFree(r, s);
        if TakesNamed(r, s) {
          TakenWasRisky(r, s);
        }
      }
    }
  }

  // ---- Along runs ----

  /** No automatic match of the run has a risky pair before it. */
  ghost predicate NeverRisky(r: Recon, steps: seq<ReconStep>)
    decreases |steps|
  {
    steps != [] && Admissible(r, steps[0]) ==>
      && (steps[0].Auto? ==> !MayShare(r, steps[0].id))
      && NeverRisky(ApplyRecon(r, steps[0]), steps[1..])
  }

  lemma SafeStep(r: Recon, s: ReconStep)
    requires ReconSound(r) && Admissible(r, s) && ShareFree(r.matches) && (s.Auto? ==> !MayShare(r, s.id))
    ensures ReconSound(ApplyRecon(r, s)) && ShareFree(ApplyRecon(r, s).matches)
  {
    hide ReconSound, ShareFree, ApplyRecon, Admissible, TakesNamed, MayShare;
    ReconStepSound(r, s);
    if s.Auto? {
      StepShareFree(r, s);
      if TakesNamed(r, s) {
        TakenWasRisky(r, s);
      }
    } else {
      OtherStepShares(r, s);
    }
  }

  lemma {:induction false} SafeRun(r: Recon, steps: seq<ReconStep>, later: Recon)
    requires ReconSound(r) && ShareFree(r.matches) && Reaches(r, steps, later) && NeverRisky(r, steps)
    ensures ShareFree(later.matches)
    decreases |steps|
  {
    hide ReconSound, ShareFree, ApplyRecon, Admissible, MayShare;
    if steps != [] {
      SafeStep(r, steps[0]);
      SafeRun(ApplyRecon(r, steps[0]), steps[1..], later);
    }
  }

  /** The same call, whose queries may answer in another order. */
  predicate SameCall(s: ReconStep, t: ReconStep) {
    s == t || (s.Auto? && t.Auto? && s.id == t.id)
  }

  predicate SameCalls(steps: seq<ReconStep>, others: seq<ReconStep>) {
    |steps| == |others| && forall k :: 0 <= k < |steps| ==> SameCall(steps[k], others[k])
  }

  /** What decides whether later calls are admissible is the same. */
  predicate SameTables(r: Recon, q: Recon) {
    r.statements == q.statements && r.lines.Keys == q.lines.Keys && r.sessions.Keys == q.sessions.Keys
  }

  lemma KeysOfAuto(r: Recon, s: ReconStep)
    requires s.Auto? && Admissible(r, s)
    ensures SameTables(r, ApplyRecon(r, s))
  {
    if s.id in r.sessions && r.sessions[s.id].status == SessionStatus.DRAFT {
      GreedyDrawsFrom(s.unmatched, s.candidates);
      RecordAllAdds(r, s.id, Greedy(s.unmatched, s.candidates));
      RecordAllKeeps(r, s.id, Greedy(s.unmatched, s.candidates));
    }
  }

  lemma {:induction false} RecordAllKeeps(r: Recon, session: SessionId, pairs: seq<Pair>)
    requires forall p :: p in pairs ==> p.statement.id in r.lines
    ensures SameTables(r, RecordAll(r, session, pairs))
    decreases |pairs|
  {
    if pairs != [] {
      RecordAllKeeps(Recorded(r, AutoMatchOf(session, pairs[0])), session, pairs[1..]);
    }
  }

  lemma KeysOfImport(r: Recon, q: Recon, s: ReconStep)
    requires s.Import? && SameTables(r, q) && Admissible(r, s)
    ensures Admissible(q, s) && SameTables(ApplyRecon(r, s), ApplyRecon(q, s))
  {
    forall line
      ensures line in ImportedLines(r.lines, s.statement, s.ids, s.items)
              <==> line in ImportedLines(q.lines, s.statement, s.ids, s.items)
    {
      ImportedLine(r.lines, s.statement, s.ids, s.items, line);
      ImportedLine(q.lines, s.statement, s.ids, s.items, line);
    }
  }

  lemma OtherKeys(r: Recon, q: Recon, s: ReconStep)
    requires !s.Auto? && !s.Import? && SameTables(r, q) && Admissible(r, s)
    ensures Admissible(q, s) && SameTables(ApplyRecon(r, s), ApplyRecon(q, s))
  {
    hide PostSystem, AdjustmentLines, MatchedIn, AllMatched, Apply;
  }

  /** The same calls can be made in q, whose queries are answered there. */
  lemma {:induction false} Continues(r: Recon, steps: seq<ReconStep>, later: Recon, q: Recon)
    returns (others: seq<ReconStep>, end: Recon)
    requires Reaches(r, steps, later) && SameTables(r, q)
    ensures SameCalls(steps, others) && Reaches(q, others, end)
    decreases |steps|
  {
    hide ApplyRecon, Admissible, SameTables;
    if steps == [] {
      others, end := [], q;
    } else {
      var s := steps[0];
      var t := s;
      if s.Auto? {
        t := AutoIsAdmissible(q, s.id);
        KeysOfAuto(r, s);
        KeysOfAuto(q, t);
        SameThrough(r, ApplyRecon(r, s), q, ApplyRecon(q, t));
      } else if s.Import? {
        KeysOfImport(r, q, s);
      } else {
        OtherKeys(r, q, s);
      }
      var rest, last := Continues(ApplyRecon(r, s), steps[1..], later, ApplyRecon(q, t));
      others, end := [t] + rest, last;
      assert others[1..] == rest;
    }
  }

  lemma SameThrough(r: Recon, r': Recon, q: Recon, q': Recon)
    requires SameTables(r, q) && SameTables(r, r') && SameTables(q, q')
    ensures SameTables(r', q')
  {
  }

  /** From a run that once has a risky pair, another order of answers makes two sessions share a line. */
  lemma {:induction false} RiskyRunShares(r: Recon, steps: seq<ReconStep>, later: Recon)
    returns (others: seq<ReconStep>, end: Recon)
    requires ReconSound(r) && ShareFree(r.matches) && Reaches(r, steps, later) && !NeverRisky(r, steps)
    ensures SameCalls(steps, others) && Reaches(r, others, end) && !ShareFree(end.matches)
    decreases |steps|
  {
    hide ReconSound, ShareFree, ApplyRecon, Admissible, TakesNamed, SameTables, Risky;
    var s := steps[0];
    if s.Auto? && MayShare(r, s.id) {
      var line, ref :| Risky(r, s.id, line, ref);
      var t := RiskyIsTaken(r, s, line, ref);
      StepShareFree(r, t);
      KeysOfAuto(r, s);
      KeysOfAuto(r, t);
      Reflexive(r);
      SameThrough(r, ApplyRecon(r, s), r, ApplyRecon(r, t));
      var rest, last := Continues(ApplyRecon(r, s), steps[1..], later, ApplyRecon(r, t));
      SharedToTheEnd(ApplyRecon(r, t), rest, last);
      others, end := [t] + rest, last;
      assert others[1..] == rest;
    } else {
      SafeStep(r, s);
      var rest, last := RiskyRunShares(ApplyRecon(r, s), steps[1..], later);
      others, end := [s] + rest, last;
      assert others[1..] == rest;
    }
  }

  lemma Reflexive(r: Recon)
    ensures SameTables(r, r)
  {
  }

  /** However the queries of these calls answer, no line is shared in the end. */
  ghost predicate EndsShareFree(steps: seq<ReconStep>) {
    forall others, r :: SameCalls(steps, others) && Reaches(NEW_RECON, others, r) ==> ShareFree(r.matches)
  }

  /** However they answer, no automatic match has a risky pair before it. */
  ghost predicate StaysSafe(steps: seq<ReconStep>) {
    forall others, r :: SameCalls(steps, others) && Reaches(NEW_RECON, others, r) ==> NeverRisky(NEW_RECON, others)
  }

  lemma SameCallsThrough(steps: seq<ReconStep>, others: seq<ReconStep>, more: seq<ReconStep>)
    requires SameCalls(steps, others) && SameCalls(others, more)
    ensures SameCalls(steps, more)
  {
    forall k | 0 <= k < |steps|
      ensures SameCall(steps[k], more[k])
    {
      assert SameCall(steps[k], others[k]) && SameCall(others[k], more[k]);
    }
  }

  /** A run ends without a shared line when no automatic match of it had a risky pair; and its calls never share one,
      in whatever order their queries answer, exactly when they never meet a risky pair. */
  lemma RunSharesExactly(steps: seq<ReconStep>, r: Recon)
    requires Reaches(NEW_RECON, steps, r)
    ensures NeverRisky(NEW_RECON, steps) ==> ShareFree(r.matches)
    ensures EndsShareFree(steps) <==> StaysSafe(steps)
  {
    EveryReconSound([], NEW_RECON);
    hide ReconSound, Reaches, NeverRisky, SameCalls;
    assert ShareFree(NEW_RECON.matches);
    hide ShareFree;
    forall others, q | SameCalls(steps, others) && Reaches(NEW_RECON, others, q)
      ensures NeverRisky(NEW_RECON, others) ==> ShareFree(q.matches)
      ensures !NeverRisky(NEW_RECON, others) ==> !EndsShareFree(steps)
    {
      if NeverRisky(NEW_RECON, others) {
        SafeRun(NEW_RECON, others, q);
      } else {
        var more, end := RiskyRunShares(NEW_RECON, others, q);
        SameCallsThrough(steps, others, more);
      }
    }
    if NeverRisky(NEW_RECON, steps) {
      SafeRun(NEW_RECON, steps, r);
    }
  }
}
