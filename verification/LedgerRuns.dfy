/** What holds of the journal after every sequence of calls of the posting engine. */
module LedgerRuns {
  import opened Money
  import opened Calendar
  import opened Ledger
  import opened Kernel
  import opened Reversal
  import opened TrialBalance

  ghost predicate Sound(l: Ledger) {
    PeriodsSound(l) && NumbersSound(l) && Linked(l) && EntriesBalance(l)
  }

  lemma StepSound(l: Ledger, s: Step)
    requires Sound(l)
    ensures Sound(Apply(l, s).ledger) && Extends(l, Apply(l, s).ledger)
  {
    var c, after := ChangeOf(l, s), Apply(l, s).ledger;
    StepMakes(l, s);
    PeriodsKept(l, c, after);
    NumbersKept(l, c, after);
    LinksKept(l, c, after);
    BalanceKept(l, c, after);
    ChangeExtends(l, c, after);
  }

  lemma {:induction false} RunSound(l: Ledger, steps: seq<Step>)
    requires Sound(l)
    ensures Sound(Run(l, steps)) && Extends(l, Run(l, steps))
    decreases |steps|
  {
    if steps != [] {
      var next := Apply(l, steps[0]).ledger;
      StepSound(l, steps[0]);
      RunSound(next, steps[1..]);
      ExtendsTransitive(l, next, Run(l, steps));
    }
  }

  /** Every reachable journal is sound. */
  lemma EveryRunSound(steps: seq<Step>)
    ensures Sound(Run(EMPTY, steps))
  {
    RunSound(EMPTY, steps);
  }

  // ---- Numbering ----

  /** The numbers of an entity and year are exactly 1..counter: each is held by one entry,
      which is in the books, and no other number is held. */
  lemma GapFreeNumbering(steps: seq<Step>, entity: EntityId, year: int, n: nat)
    ensures
      var l := Run(EMPTY, steps);
      && (1 <= n <= Counter(l, entity, year) <==> Used(l, entity, year, n))
      && (forall i: EntryId, j: EntryId :: Holds(l, i, entity, year, n) && Holds(l, j, entity, year, n) ==> i == j)
      && (forall i: EntryId :: i < |l.entries| ==> (InBooks(l.entries[i]) <==> l.entries[i].number.Numbered?))
      && (forall i: EntryId :: Holds(l, i, entity, year, n) ==> l.entries[i].entryDate.year == year)
  {
    EveryRunSound(steps);
    var l := Run(EMPTY, steps);
    forall i: EntryId | i < |l.entries|
      ensures InBooks(l.entries[i]) <==> l.entries[i].number.Numbered?
      ensures Holds(l, i, entity, year, n) ==> 1 <= n <= Counter(l, entity, year) && l.entries[i].entryDate.year == year
    {
      assert NumberSound(l, l.entries[i]);
    }
  }

  /** A call that fails consumes no number and leaves every entry alone. */
  lemma FailureConsumesNothing(l: Ledger, s: Step)
    requires Apply(l, s).result.Err?
    ensures Apply(l, s).ledger.counters == l.counters && Apply(l, s).ledger.entries == l.entries
  {
    StepMakes(l, s);
  }

  // ---- Locked periods ----

  predicate Locked(l: Ledger, key: PeriodKey) {
    key in l.periods && l.periods[key] == LOCKED
  }

  /** Once locked, a period stays locked, has no entry left to decide, gains no entry, and
      changes only by a POSTED entry becoming REVERSED. */
  lemma LockedPeriodsAreFrozen(before: seq<Step>, more: seq<Step>, key: PeriodKey)
    requires Locked(Run(EMPTY, before), key)
    ensures
      var l, later := Run(EMPTY, before), Run(Run(EMPTY, before), more);
      && Locked(later, key) && |l.entries| <= |later.entries|
      && (forall i :: 0 <= i < |later.entries| && later.entries[i].period == key ==>
            && i < |l.entries|
            && !Unresolved(later.entries[i])
            && later.entries[i].lines == l.entries[i].lines
            && (later.entries[i].status == l.entries[i].status
                || (l.entries[i].status == POSTED && later.entries[i].status == REVERSED)))
      && (forall i :: 0 <= i < |l.entries| && l.entries[i].period == key ==> later.entries[i].period == key)
  {
    var l, later := Run(EMPTY, before), Run(Run(EMPTY, before), more);
    EveryRunSound(before);
    RunSound(l, more);
    forall i | 0 <= i < |later.entries|
      ensures later.entries[i].period == key ==> i < |l.entries| && !Unresolved(later.entries[i])
      ensures i < |l.entries| ==> Matures(l, l.entries[i], later.entries[i])
    {
      assert Settled(later, later.entries[i]);
    }
  }

  /** Every entry's period is the one calendar month in which the instant of its date falls. */
  lemma PeriodIsMonthOfDate(steps: seq<Step>, i: EntryId, index: int)
    requires i < |Run(EMPTY, steps).entries| && WellFormed(Run(EMPTY, steps).entries[i].entryDate)
    ensures
      var e := Run(EMPTY, steps).entries[i];
      && e.period.entity == e.entity && e.period.month < 12
      && (MonthStart(index) <= Time(e.entryDate) < MonthStart(index + 1)
          <==> index == e.period.year * 12 + e.period.month)
  {
    EveryRunSound(steps);
    var e := Run(EMPTY, steps).entries[i];
    assert Settled(Run(EMPTY, steps), e);
    hide *;
    SettledPeriod(Run(EMPTY, steps), e);
    PeriodMonth(e, index);
  }

  lemma SettledPeriod(l: Ledger, e: Entry)
    requires Settled(l, e)
    ensures e.period == PeriodKey(e.entity, e.entryDate.year, e.entryDate.month)
  {
  }

  lemma PeriodMonth(e: Entry, index: int)
    requires e.period == PeriodKey(e.entity, e.entryDate.year, e.entryDate.month) && WellFormed(e.entryDate)
    ensures e.period.month < 12
    ensures MonthStart(index) <= Time(e.entryDate) < MonthStart(index + 1)
            <==> index == e.period.year * 12 + e.period.month
  {
    DateIsInItsMonth(e.entryDate, index);
    hide MonthStart, Time, DaysInMonth;
  }

  // ---- Reversal chains ----

  /** In every reachable journal a chain that starts in the books ends POSTED, its other members are
      REVERSED, its lines alternate, and for every filter it nets to its first entry or to nothing. */
  lemma ReversalChains(steps: seq<Step>, r: EntryId, f: Filter)
    requires r < |Run(EMPTY, steps).entries|
    requires Run(EMPTY, steps).entries[r].reversalOf == None && InBooks(Run(EMPTY, steps).entries[r])
    ensures Linked(Run(EMPTY, steps))
    ensures
      var l := Run(EMPTY, steps);
      var chain := Chain(l, r);
      && (forall k :: 0 <= k < |chain| ==>
            && l.entries[chain[k]].status == (if k == |chain| - 1 then POSTED else REVERSED)
            && l.entries[chain[k]].lines == Alternate(l.entries[r].lines, k))
      && (forall i: EntryId :: i < |l.entries| ==> (i in chain <==> Root(l, i) == r))
      && NetOfEntries(l, chain, f) == if |chain| % 2 == 1 then Net(l.entries[r].lines, f) else 0
  {
    EveryRunSound(steps);
    var l := Run(EMPTY, steps);
    var chain := Chain(l, r);
    forall k | 0 <= k < |chain|
      ensures l.entries[chain[k]].status == if k == |chain| - 1 then POSTED else REVERSED
      ensures l.entries[chain[k]].lines == Alternate(l.entries[r].lines, k)
    {
      ChainAlternates(l, r, k);
    }
    forall i: EntryId | i < |l.entries|
      ensures i in chain <==> Root(l, i) == r
    {
      ChainsPartition(l, r, i);
    }
    ChainNet(l, r, f);
  }

  lemma {:induction false} BooksStandAlong(l: Ledger, steps: seq<Step>, f: Filter)
    requires Sound(l) && BooksStand(l, f)
    ensures BooksStand(Run(l, steps), f)
    decreases |steps|
  {
    if steps != [] {
      StepMakes(l, steps[0]);
      StepSound(l, steps[0]);
      BooksStandKept(l, ChangeOf(l, steps[0]), Apply(l, steps[0]).ledger, f);
      BooksStandAlong(Apply(l, steps[0]).ledger, steps[1..], f);
    }
  }

  /** For every account and dimension filter, POSTED and REVERSED entries together net to the POSTED
      entries that undo an even number of reversals. */
  lemma BooksNetToStandingEntries(steps: seq<Step>, f: Filter)
    ensures BooksStand(Run(EMPTY, steps), f)
  {
    EveryRunSound([]);
    assert Run(EMPTY, []) == EMPTY;
    assert BooksNets(EMPTY, f) == [] && StandingNets(EMPTY, f) == [];
    BooksStandAlong(EMPTY, steps, f);
  }

  // ---- Trial balance ----

  lemma {:induction false} RunTight(l: Ledger, steps: seq<Step>)
    requires AllTight(l) && forall s :: s in steps ==> OneSidedInput(s)
    ensures AllTight(Run(l, steps))
    decreases |steps|
  {
    hide AllTight, Apply, OneSidedInput;
    if steps != [] {
      assert steps[0] in steps;
      StepTight(l, steps[0]);
      RunTight(Apply(l, steps[0]).ledger, steps[1..]);
    }
  }

  /** After every run, the posted debits and credits of any entities differ by at most half a cent for each posted entry
      that nobody else approved and a cent for each of its lines; half a cent a line when no side is negative. */
  lemma TrialBalanceDrift(steps: seq<Step>, q: Query)
    ensures
      var l := Run(EMPTY, steps);
      && 2 * IntAbs(Imbalance(PostedLines(l.entries, q))) <= Slack(l.entries, q, 2)
      && ((forall s :: s in steps ==> OneSidedInput(s)) ==>
            2 * IntAbs(Imbalance(PostedLines(l.entries, q))) <= Slack(l.entries, q, 1))
  {
    var l := Run(EMPTY, steps);
    EveryRunSound(steps);
    hide Run, OneSidedInput, PostedLines, Slack;
    SoundDrift(l, q);
    if forall s :: s in steps ==> OneSidedInput(s) {
      assert AllTight(EMPTY);
      RunTight(EMPTY, steps);
      TightDrift(l, q);
    }
  }

  lemma SoundDrift(l: Ledger, q: Query)
    requires PeriodsSound(l) && EntriesBalance(l)
    ensures 2 * IntAbs(Imbalance(PostedLines(l.entries, q))) <= Slack(l.entries, q, 2)
  {
    forall e | e in l.entries
      ensures Placed(e) && (e.status == POSTED ==> 2 * IntAbs(Imbalance(e.lines)) <= EntrySlack(e, 2))
    {
      var i :| 0 <= i < |l.entries| && l.entries[i] == e;
      assert Settled(l, l.entries[i]) && EntryBalance(l.entries[i]);
    }
    hide EntriesBalance, PeriodsSound;
    PostedDrift(l.entries, q, 2);
  }

  lemma TightDrift(l: Ledger, q: Query)
    requires PeriodsSound(l) && EntriesBalance(l) && AllTight(l)
    ensures 2 * IntAbs(Imbalance(PostedLines(l.entries, q))) <= Slack(l.entries, q, 1)
  {
    forall e | e in l.entries
      ensures Placed(e) && (e.status == POSTED ==> 2 * IntAbs(Imbalance(e.lines)) <= EntrySlack(e, 1))
    {
      var i :| 0 <= i < |l.entries| && l.entries[i] == e;
      assert Settled(l, l.entries[i]) && EntryBalance(l.entries[i]) && Tight(l.entries[i].lines);
    }
    hide EntriesBalance, PeriodsSound, AllTight;
    PostedDrift(l.entries, q, 1);
  }

  /** Every system entry the run accepts rounds evenly. */
  predicate PostsEvenly(l: Ledger, steps: seq<Step>)
    decreases |steps|
  {
    steps == [] ||
    ((Accepts(l, steps[0]) ==> RoundsEvenly(steps[0].op.input.lines))
     && PostsEvenly(Apply(l, steps[0]).ledger, steps[1..]))
  }

  /** The books balance to the cent, entry by entry, exactly when every accepted system entry rounds evenly:
      drafts, reviews, postings, reversals and locks never disturb the balance. */
  lemma {:induction false} RunExact(l: Ledger, steps: seq<Step>)
    ensures ExactlyBalanced(Run(l, steps)) <==> ExactlyBalanced(l) && PostsEvenly(l, steps)
    decreases |steps|
  {
    if steps != [] {
      StepExact(l, steps[0]);
      RunExact(Apply(l, steps[0]).ledger, steps[1..]);
    }
  }

  lemma {:induction false} WholeCentsPostEvenly(l: Ledger, steps: seq<Step>)
    requires forall s :: s in steps && s.op.OpPostSystem? ==> WholeCentLines(s.op.input.lines)
    ensures PostsEvenly(l, steps)
    decreases |steps|
  {
    if steps != [] {
      if Accepts(l, steps[0]) {
        WholeCentsRoundEvenly(steps[0].op.input.lines);
      }
      WholeCentsPostEvenly(Apply(l, steps[0]).ledger, steps[1..]);
    }
  }

  /** When system entries are supplied in whole cents, every trial balance of every run balances exactly. */
  lemma TrialBalanceExact(steps: seq<Step>, q: Query)
    requires forall s :: s in steps && s.op.OpPostSystem? ==> WholeCentLines(s.op.input.lines)
    ensures ExactlyBalanced(Run(EMPTY, steps))
    ensures Imbalance(PostedLines(Run(EMPTY, steps).entries, q)) == 0
  {
    EveryRunSound(steps);
    WholeCentsPostEvenly(EMPTY, steps);
    RunExact(EMPTY, steps);
    var l := Run(EMPTY, steps);
    forall e | e in l.entries
      ensures Placed(e) && (e.status == POSTED ==> Imbalance(e.lines) == 0)
    {
      var i :| 0 <= i < |l.entries| && l.entries[i] == e;
      assert Settled(l, l.entries[i]);
    }
    PostedExact(l.entries, q);
  }

  /** An entry that a second person approved is never in the books out of balance, whatever was supplied. */
  lemma ReviewedEntriesBalance(steps: seq<Step>, i: EntryId)
    requires i < |Run(EMPTY, steps).entries|
    requires
      var e := Run(EMPTY, steps).entries[i];
      InBooks(e) && e.approvedBy != Some(e.createdBy)
    ensures Imbalance(Run(EMPTY, steps).entries[i].lines) == 0
  {
    EveryRunSound(steps);
    assert EntryBalance(Run(EMPTY, steps).entries[i]);
  }
}
