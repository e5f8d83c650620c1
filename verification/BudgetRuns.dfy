/** Budgets over whole runs: availability, totals, and the replay of the revision and transfer records. */
module BudgetRuns {
  import opened Money
  import opened Sums
  import opened Ledger
  import opened Budgeting

  // ---- Steps ----

  datatype BudgetStep =
    | DoCreate(activeEntities: set<EntityId>, activated: set<(EntityId, AccountId)>, input: BudgetInput, user: UserId)
    | DoSubmit(id: BudgetId)
    | DoApprove(id: BudgetId, user: UserId)
    | DoReject(id: BudgetId)
    | DoClose(id: BudgetId)
    | DoRevise(id: BudgetId, changes: seq<RevisionLine>)
    | DoTransfer(actuals: Actuals, id: BudgetId, from: BudgetLineId, to: BudgetLineId, amount: real)
    | DoCommit(actuals: Actuals, line: BudgetLineId, amount: real)
    | DoRelease(commitment: CommitmentId, amount: real)
    | DoCancel(commitment: CommitmentId)

  function ApplyBudget(b: Budgets, s: BudgetStep): Budgets {
    match s
    case DoCreate(activeEntities, activated, input, user) =>
      BudgetCreated(b, activeEntities, activated, input, user).state
    case DoSubmit(id) => BudgetMoved(b, id, {BudgetStatus.DRAFT, BudgetStatus.REJECTED}, SUBMITTED).state
    case DoApprove(id, user) => BudgetApproved(b, id, user).state
    case DoReject(id) => BudgetMoved(b, id, {SUBMITTED}, BudgetStatus.REJECTED).state
    case DoClose(id) => BudgetMoved(b, id, {BudgetStatus.APPROVED}, CLOSED).state
    case DoRevise(id, changes) => Revised(b, id, changes).state
    case DoTransfer(actuals, id, from, to, amount) => Transferred(b, actuals, id, from, to, amount).state
    case DoCommit(actuals, line, amount) => CommitmentCreated(b, actuals, line, amount).state
    case DoRelease(commitment, amount) => CommitmentReleased(b, commitment, amount).state
    case DoCancel(commitment) => CommitmentCancelled(b, commitment).state
  }

  function RunBudget(b: Budgets, steps: seq<BudgetStep>): Budgets
    decreases |steps|
  {
    if steps == [] then b else RunBudget(ApplyBudget(b, steps[0]), steps[1..])
  }

  const NO_BUDGETS := Budgets([], [], [], [])

  // ---- What every step keeps ----

  predicate CommitmentSound(c: Commitment) {
    StillOpen(c) ==> 0 <= c.released <= c.amount
  }

  /** Lines have their budget, and what is still open of a commitment is not negative. */
  predicate BudgetsSound(b: Budgets) {
    && (forall i :: 0 <= i < |b.lines| ==> b.lines[i].budget < |b.budgets|)
    && (forall i :: 0 <= i < |b.commitments| ==> CommitmentSound(b.commitments[i]))
  }

  predicate KeepsLine(l: BudgetLine, after: BudgetLine) {
    after.budget == l.budget && after.scope == l.scope && after.original == l.original
  }

  predicate KeepsBudget(x: Budget, after: Budget) {
    after.entity == x.entity && after.fiscalYear == x.fiscalYear
  }

  /** Budgets and lines are only added to, and keep what they are for. */
  predicate Grows(b: Budgets, after: Budgets) {
    && |b.budgets| <= |after.budgets| && |b.lines| <= |after.lines|
    && (forall i :: 0 <= i < |b.budgets| ==> KeepsBudget(b.budgets[i], after.budgets[i]))
    && (forall i :: 0 <= i < |b.lines| ==> KeepsLine(b.lines[i], after.lines[i]))
    && (forall i :: |b.lines| <= i < |after.lines| ==> |b.budgets| <= after.lines[i].budget < |after.budgets|)
  }

  lemma {:induction false} RevisionsKeepLines(lines: seq<BudgetLine>, changes: seq<RevisionLine>)
    ensures forall i :: 0 <= i < |lines| ==> KeepsLine(lines[i], WithRevisions(lines, changes)[i])
    decreases |changes|
  {
    if changes != [] {
      RevisionsKeepLines(lines, changes[..|changes| - 1]);
    }
  }

  lemma StepGrows(b: Budgets, s: BudgetStep)
    ensures Grows(b, ApplyBudget(b, s))
  {
    hide Available, Store, Fetched, LastRevision, ChangesOf, HasBudget, LinesActivated;
    if s.DoRevise? {
      RevisionsKeepLines(b.lines, s.changes);
    }
  }

  /** Amounts of transfers, commitments and releases are positive, as their DTOs demand. */
  predicate Positive(s: BudgetStep) {
    s.DoTransfer? || s.DoCommit? || s.DoRelease? ==> s.amount > 0.0
  }

  lemma ReleasedSound(c: Commitment, amount: real)
    requires CommitmentSound(c) && StillOpen(c) && amount > 0.0
    ensures
      var newReleased := c.released as real + amount;
      newReleased < c.amount as real - TOLERANCE ==> c.released <= Store(newReleased) <= c.amount
  {
    StoreWhole(c.released);
    StoreMonotone(c.released as real, c.released as real + amount);
  }

  lemma StepSound(b: Budgets, s: BudgetStep)
    requires BudgetsSound(b) && Positive(s)
    ensures BudgetsSound(ApplyBudget(b, s))
  {
    StepGrows(b, s);
    if s.DoRelease? && s.commitment < |b.commitments| && StillOpen(b.commitments[s.commitment]) {
      assert CommitmentSound(b.commitments[s.commitment]);
      ReleasedSound(b.commitments[s.commitment], s.amount);
    }
    hide Available, Fetched, LastRevision, ChangesOf, HasBudget, LinesActivated, WithRevisions, WithTransfer;
    var after := ApplyBudget(b, s);
    forall i | 0 <= i < |after.lines|
      ensures after.lines[i].budget < |after.budgets|
    {
      if i < |b.lines| {
        assert KeepsLine(b.lines[i], after.lines[i]);
      }
    }
    forall i | 0 <= i < |after.commitments|
      ensures CommitmentSound(after.commitments[i])
    {
      if i < |b.commitments| {
        assert CommitmentSound(b.commitments[i]);
      }
    }
  }

  /** Every state that positive steps reach is sound. */
  lemma {:induction false} EveryRunSound(b: Budgets, steps: seq<BudgetStep>)
    requires BudgetsSound(b) && forall s :: s in steps ==> Positive(s)
    ensures BudgetsSound(RunBudget(b, steps))
    decreases |steps|
  {
    if steps != [] {
      hide BudgetsSound, ApplyBudget;
      assert steps[0] in steps;
      StepSound(b, steps[0]);
      EveryRunSound(ApplyBudget(b, steps[0]), steps[1..]);
    }
  }

  // ---- Availability ----

  lemma AvailableIs(b: Budgets, a: Actuals, line: BudgetLineId, after: Budgets)
    requires LineExists(b, line) && Grows(b, after)
    ensures LineExists(after, line)
    ensures Available(after, a, line) - Available(b, a, line)
            == (after.lines[line].revised - b.lines[line].revised) - (Committed(after, line) - Committed(b, line))
  {
    assert KeepsLine(b.lines[line], after.lines[line]);
    assert KeepsBudget(b.budgets[b.lines[line].budget], after.budgets[b.lines[line].budget]);
    hide Actual, Committed;
  }

  /** A stored result is at least any whole number of cents that the result itself is at least. */
  lemma StoreAtLeast(x: real, n: int)
    requires x >= n as real
    ensures Store(x) >= n
  {
    StoreWhole(n);
    StoreMonotone(n as real, x);
  }

  lemma StoreAtMost(x: real, n: int)
    requires x <= n as real
    ensures Store(x) <= n
  {
    StoreWhole(n);
    StoreMonotone(x, n as real);
  }

  lemma TransferLeaves(b: Budgets, s: BudgetStep, line: BudgetLineId)
    requires s.DoTransfer? && s.amount > 0.0 && LineExists(b, line) && Available(b, s.actuals, line) >= 0
    ensures LineExists(ApplyBudget(b, s), line) && Available(ApplyBudget(b, s), s.actuals, line) >= 0
  {
    var after := ApplyBudget(b, s);
    StepGrows(b, s);
    AvailableIs(b, s.actuals, line, after);
    hide Actual, Store;
    if after != b {
      var revised := b.lines[line].revised;
      if line == s.from {
        StoreAtLeast(revised as real - s.amount, revised - Available(b, s.actuals, line));
      } else if line == s.to {
        StoreAtLeast(revised as real + s.amount, revised);
      }
    }
  }

  lemma CommitLeaves(b: Budgets, s: BudgetStep, line: BudgetLineId)
    requires s.DoCommit? && LineExists(b, line) && Available(b, s.actuals, line) >= 0
    ensures LineExists(ApplyBudget(b, s), line) && Available(ApplyBudget(b, s), s.actuals, line) >= 0
  {
    var after := ApplyBudget(b, s);
    StepGrows(b, s);
    AvailableIs(b, s.actuals, line, after);
    hide Actual, Store, Sum;
    if after != b {
      SumAppend(b.commitments, after.commitments[|b.commitments|], OpenOn(line));
      StoreAtMost(s.amount, Available(b, s.actuals, s.line));
    }
  }

  /** Releasing or cancelling a commitment leaves no more of it open. */
  lemma FreeLeaves(b: Budgets, s: BudgetStep, a: Actuals, line: BudgetLineId)
    requires (s.DoRelease? || s.DoCancel?) && BudgetsSound(b) && Positive(s)
    requires LineExists(b, line) && Available(b, a, line) >= 0
    ensures LineExists(ApplyBudget(b, s), line) && Available(ApplyBudget(b, s), a, line) >= 0
  {
    var after := ApplyBudget(b, s);
    StepGrows(b, s);
    AvailableIs(b, a, line, after);
    if s.commitment < |b.commitments| && StillOpen(b.commitments[s.commitment]) {
      var c := b.commitments[s.commitment];
      assert CommitmentSound(c);
      if s.DoRelease? {
        ReleasedSound(c, s.amount);
      }
      hide Actual, Available, Store, Sum;
      SumUpdate(b.commitments, s.commitment, after.commitments[s.commitment], OpenOn(line));
      assert after.commitments == b.commitments[s.commitment := after.commitments[s.commitment]];
    }
  }

  /** Actuals stand still, amounts are positive, and nothing is revised. */
  predicate Calm(s: BudgetStep, a: Actuals) {
    && Positive(s) && !s.DoRevise?
    && (s.DoTransfer? || s.DoCommit? ==> s.actuals == a)
  }

  lemma StepLeaves(b: Budgets, s: BudgetStep, a: Actuals, line: BudgetLineId)
    requires BudgetsSound(b) && Calm(s, a) && LineExists(b, line) && Available(b, a, line) >= 0
    ensures LineExists(ApplyBudget(b, s), line) && Available(ApplyBudget(b, s), a, line) >= 0
  {
    match s
    case DoTransfer(_, _, _, _, _) => TransferLeaves(b, s, line);
    case DoCommit(_, _, _) => CommitLeaves(b, s, line);
    case DoRelease(_, _) => FreeLeaves(b, s, a, line);
    case DoCancel(_) => FreeLeaves(b, s, a, line);
    case _ =>
      StepGrows(b, s);
      AvailableIs(b, a, line, ApplyBudget(b, s));
      hide Available, Actual, Store, HasBudget, LinesActivated;
  }

  /** Whatever is transferred, committed, released and cancelled while actuals stand still, a line whose available
      amount is not negative never goes below zero. */
  lemma {:induction false} NeverOverspent(b: Budgets, steps: seq<BudgetStep>, a: Actuals, line: BudgetLineId)
    requires BudgetsSound(b) && LineExists(b, line) && Available(b, a, line) >= 0
    requires forall s :: s in steps ==> Calm(s, a)
    ensures LineExists(RunBudget(b, steps), line) && Available(RunBudget(b, steps), a, line) >= 0
    decreases |steps|
  {
    if steps != [] {
      hide Available, LineExists, BudgetsSound, ApplyBudget;
      assert steps[0] in steps;
      StepSound(b, steps[0]);
      StepLeaves(b, steps[0], a, line);
      NeverOverspent(ApplyBudget(b, steps[0]), steps[1..], a, line);
    }
  }

  // ---- Rounding of a transfer ----

  predicate Below(x: real) {
    x < 0.0
  }

  lemma FloorShifts(r: int, x: real)
    ensures (r as real + x).Floor == r + x.Floor
  {
  }

  /** Away from half cents both ways of rounding agree. */
  lemma StoreNearest(x: real)
    requires !HalfCent(x)
    ensures Store(x) == (x + 0.5).Floor
  {
    var k := x.Floor;
    if x - k as real < 0.5 {
      FloorIs(x + 0.5, k);
      FloorIs(-x + 0.5, -k);
    } else {
      FloorIs(x + 0.5, k + 1);
      FloorIs(-x + 0.5, -k - 1);
    }
  }

  lemma StoreHalf(x: real)
    requires HalfCent(x)
    ensures Store(x) == if Below(x) then x.Floor else x.Floor + 1
  {
    FloorIs(x + 0.5, x.Floor + 1);
    FloorIs(-x + 0.5, -x.Floor);
  }

  lemma StoreShifts(r: int, x: real)
    ensures !HalfCent(x) ==> Store(r as real + x) == r + Store(x)
    ensures HalfCent(x) && !Below(r as real + x) ==> Store(r as real + x) == r + x.Floor + 1
    ensures HalfCent(x) && Below(r as real + x) ==> Store(r as real + x) == r + x.Floor
  {
    FloorShifts(r, x);
    if HalfCent(x) {
      StoreHalf(r as real + x);
    } else {
      FloorShifts(r, x + 0.5);
      assert r as real + x + 0.5 == r as real + (x + 0.5);
      StoreNearest(x);
      StoreNearest(r as real + x);
    }
    hide Store;
  }

  lemma HalfCentNegated(x: real)
    ensures HalfCent(-x) <==> HalfCent(x)
    ensures HalfCent(x) ==> (-x).Floor == -x.Floor - 1
  {
    if HalfCent(x) {
      assert -x == (-x.Floor - 1) as real + 0.5;
    }
    if HalfCent(-x) {
      assert x == (-(-x).Floor - 1) as real + 0.5;
    }
  }

  /** The two roundings of a transfer cancel. */
  predicate RoundsApart(from: int, to: int, amount: real) {
    HalfCent(amount) ==> Below(from as real - amount) != Below(to as real + amount)
  }

  /** Both roundings of a transfer agree with that of its record. */
  predicate RoundsAlike(from: int, to: int, amount: real) {
    HalfCent(amount) ==> Below(from as real - amount) && !Below(to as real + amount)
  }

  lemma TransferRounds(from: int, to: int, amount: real)
    requires amount > 0.0
    ensures
      var taken, given := Store(from as real - amount), Store(to as real + amount);
      && (taken + given == from + to <==> RoundsApart(from, to, amount))
      && (taken == from - Store(amount) && given == to + Store(amount) <==> RoundsAlike(from, to, amount))
  {
    HalfCentNegated(amount);
    StoreOdd(amount);
    StoreShifts(from, -amount);
    StoreShifts(to, amount);
    StoreShifts(0, amount);
    assert from as real - amount == from as real + -amount;
    hide Store;
  }

  // ---- Totals ----

  function RevisedOf(id: BudgetId, l: BudgetLine): int {
    if l.budget == id then l.revised else 0
  }

  function RevisedIn(id: BudgetId): BudgetLine -> int {
    (l: BudgetLine) => RevisedOf(id, l)
  }

  function BudgetTotal(b: Budgets, id: BudgetId): int {
    Sum(b.lines, RevisedIn(id))
  }

  lemma TransferMoves(lines: seq<BudgetLine>, from: BudgetLineId, to: BudgetLineId, amount: real, id: BudgetId)
    requires from < |lines| && to < |lines| && from != to && lines[from].budget == lines[to].budget
    ensures
      var taken, given := Store(lines[from].revised as real - amount), Store(lines[to].revised as real + amount);
      Sum(WithTransfer(lines, from, to, amount), RevisedIn(id)) - Sum(lines, RevisedIn(id))
      == if lines[from].budget == id then (taken + given) - (lines[from].revised + lines[to].revised) else 0
  {
    var after := WithTransfer(lines, from, to, amount);
    var half := lines[from := after[from]];
    assert after == half[to := after[to]];
    hide Sum, Store;
    SumUpdate(lines, from, after[from], RevisedIn(id));
    SumUpdate(half, to, after[to], RevisedIn(id));
  }

  /** A transfer keeps the total of its budget exactly when its amount is no odd half cent, or just one of its two
      results is negative: otherwise both results round away from zero in the same direction. */
  lemma TransferKeepsTotal(b: Budgets, a: Actuals, id: BudgetId, from: BudgetLineId, to: BudgetLineId, amount: real)
    requires amount > 0.0
    ensures Transferred(b, a, id, from, to, amount).result.Ok? ==>
              (BudgetTotal(Transferred(b, a, id, from, to, amount).state, id) == BudgetTotal(b, id)
               <==> RoundsApart(b.lines[from].revised, b.lines[to].revised, amount))
  {
    hide Available, Sum, Store, RoundsApart, WithTransfer;
    if Transferred(b, a, id, from, to, amount).result.Ok? {
      TransferMoves(b.lines, from, to, amount, id);
      TransferRounds(b.lines[from].revised, b.lines[to].revised, amount);
    }
  }

  predicate Transfers(b: Budgets, s: BudgetStep) {
    s.DoTransfer? && Transferred(b, s.actuals, s.id, s.from, s.to, s.amount).result.Ok?
  }

  /** Each transfer of the run that succeeds rounds so that P holds of its two lines and its amount. */
  predicate TransfersRound(b: Budgets, steps: seq<BudgetStep>, p: (int, int, real) -> bool)
    decreases |steps|
  {
    steps != [] ==>
      && TransfersRound(ApplyBudget(b, steps[0]), steps[1..], p)
      && (Transfers(b, steps[0]) ==>
            p(b.lines[steps[0].from].revised, b.lines[steps[0].to].revised, steps[0].amount))
  }

  lemma CreateKeepsTotal(b: Budgets, s: BudgetStep, id: BudgetId)
    requires s.DoCreate? && id < |b.budgets|
    ensures BudgetTotal(ApplyBudget(b, s), id) == BudgetTotal(b, id)
  {
    var after := ApplyBudget(b, s);
    hide Sum, Store, HasBudget, LinesActivated;
    if after != b {
      var added := after.lines[|b.lines|..];
      assert after.lines == b.lines + added;
      SumConcat(b.lines, added, RevisedIn(id));
      SumZero(added, RevisedIn(id));
    }
  }

  lemma TransferStepKeepsTotal(b: Budgets, s: BudgetStep, id: BudgetId)
    requires Positive(s) && s.DoTransfer? && TransfersRound(b, [s], RoundsApart)
    ensures BudgetTotal(ApplyBudget(b, s), id) == BudgetTotal(b, id)
  {
    hide Available, Sum, Store, WithTransfer, RoundsApart;
    if Transferred(b, s.actuals, s.id, s.from, s.to, s.amount).result.Ok? {
      if s.id == id {
        TransferKeepsTotal(b, s.actuals, id, s.from, s.to, s.amount);
      } else {
        TransferMoves(b.lines, s.from, s.to, s.amount, id);
      }
    }
  }

  lemma OtherKeepsLines(b: Budgets, s: BudgetStep)
    requires !s.DoTransfer? && !s.DoCreate? && !s.DoRevise?
    ensures ApplyBudget(b, s).lines == b.lines
  {
    hide Available, Store;
  }

  lemma StepKeepsTotal(b: Budgets, s: BudgetStep, id: BudgetId)
    requires Positive(s) && !s.DoRevise? && id < |b.budgets| && TransfersRound(b, [s], RoundsApart)
    ensures BudgetTotal(ApplyBudget(b, s), id) == BudgetTotal(b, id)
  {
    if s.DoTransfer? {
      TransferStepKeepsTotal(b, s, id);
    } else if s.DoCreate? {
      CreateKeepsTotal(b, s, id);
    } else {
      OtherKeepsLines(b, s);
    }
  }

  lemma TransfersRoundFirst(b: Budgets, steps: seq<BudgetStep>, p: (int, int, real) -> bool)
    requires steps != [] && TransfersRound(b, steps, p)
    ensures TransfersRound(b, [steps[0]], p)
  {
    assert TransfersRound(ApplyBudget(b, steps[0]), [steps[0]][1..], p);
  }

  /** Without a revision, no run of transfers that round apart, commitments, releases and cancellations changes the
      total of a budget. */
  lemma {:induction false} TotalIsConstant(b: Budgets, steps: seq<BudgetStep>, id: BudgetId)
    requires id < |b.budgets| && TransfersRound(b, steps, RoundsApart)
    requires forall s :: s in steps ==> Positive(s) && !s.DoRevise?
    ensures BudgetTotal(RunBudget(b, steps), id) == BudgetTotal(b, id)
    decreases |steps|
  {
    if steps != [] {
      assert steps[0] in steps;
      TransfersRoundFirst(b, steps, RoundsApart);
      StepGrows(b, steps[0]);
      hide BudgetTotal, ApplyBudget, Transferred;
      StepKeepsTotal(b, steps[0], id);
      TotalIsConstant(ApplyBudget(b, steps[0]), steps[1..], id);
    }
  }
}
