/** The journal: entries, fiscal periods and number counters, and what each
operation of the posting engine makes of them. An entry's id is its index. */
module Ledger {
  import opened Money
  import opened Sums
  import opened Calendar

  type EntityId = nat
  type AccountId = nat
  type UserId = nat
  type EntryId = nat

  datatype EntryStatus = DRAFT | PENDING_APPROVAL | APPROVED | POSTED | REVERSED | REJECTED

  datatype PeriodStatus = OPEN | SOFT_CLOSED | LOCKED

  /** A fiscal period is an entity's calendar month. */
  datatype PeriodKey = PeriodKey(entity: EntityId, year: int, month: nat)

  datatype Dimensions = Dimensions(
    project: Option<nat>, phase: Option<nat>, block: Option<nat>, floor: Option<nat>, unit: Option<nat>,
    department: Option<nat>, costCenter: Option<nat>, fundingSource: Option<nat>,
    vendor: Option<nat>, customer: Option<nat>)

  const NO_DIMENSIONS := Dimensions(None, None, None, None, None, None, None, None, None, None)

  /** A journal line as stored. */
  datatype Line = Line(account: AccountId, debit: int, credit: int, entity: EntityId, dims: Dimensions)

  /** A journal line as a caller supplies it. */
  datatype LineInput = LineInput(account: AccountId, debit: real, credit: real, dims: Dimensions)

  datatype EntryInput = EntryInput(entity: EntityId, entryDate: Date, lines: seq<LineInput>)

  datatype JournalNumber = Unnumbered | Numbered(year: int, sequence: nat)

  datatype Entry = Entry(
    entity: EntityId, period: PeriodKey, entryDate: Date, status: EntryStatus, number: JournalNumber,
    lines: seq<Line>, createdBy: UserId, approvedBy: Option<UserId>, reversalOf: Option<EntryId>)

  datatype Ledger = Ledger(
    entries: seq<Entry>, periods: map<PeriodKey, PeriodStatus>, counters: map<(EntityId, int), nat>)

  /** Master data owned by other services: active entities, and the accounts that are
      activated for an entity, postable and active. */
  datatype Master = Master(activeEntities: set<EntityId>, postable: set<(EntityId, AccountId)>)

  datatype Outcome = Outcome(ledger: Ledger, result: Result<EntryId>)

  const EMPTY := Ledger([], map[], map[])

  // ---- Reading ----

  function PeriodOf(entity: EntityId, d: Date): PeriodKey {
    PeriodKey(entity, d.year, d.month)
  }

  function Counter(l: Ledger, entity: EntityId, year: int): nat {
    if (entity, year) in l.counters then l.counters[(entity, year)] else 0
  }

  predicate InBooks(e: Entry) {
    e.status == POSTED || e.status == REVERSED
  }

  function DebitOf(line: Line): int { line.debit }

  function CreditOf(line: Line): int { line.credit }

  function NetOf(line: Line): int { line.debit - line.credit }

  function InputDebit(line: LineInput): real { line.debit }

  function InputCredit(line: LineInput): real { line.credit }

  // ---- Validation ----

  predicate HasValue(lines: seq<LineInput>) {
    SumReal(lines, InputDebit) != 0.0 || SumReal(lines, InputCredit) != 0.0
  }

  predicate Balanced(lines: seq<LineInput>) {
    Abs(SumReal(lines, InputDebit) - SumReal(lines, InputCredit)) <= TOLERANCE && HasValue(lines)
  }

  predicate OneSided(line: LineInput) {
    !(line.debit > 0.0 && line.credit > 0.0) && !(line.debit == 0.0 && line.credit == 0.0)
  }

  predicate NoZeroLines(lines: seq<LineInput>) {
    forall line :: line in lines ==> OneSided(line)
  }

  predicate LinesPostable(master: Master, entity: EntityId, lines: seq<LineInput>) {
    forall line :: line in lines ==> (entity, line.account) in master.postable
  }

  // ---- Storing ----

  function StoreLine(entity: EntityId, line: LineInput): Line {
    Line(line.account, Store(line.debit), Store(line.credit), entity, line.dims)
  }

  function StoreLines(entity: EntityId, lines: seq<LineInput>): (stored: seq<Line>)
    ensures |stored| == |lines|
  {
    seq(|lines|, i requires 0 <= i < |lines| => StoreLine(entity, lines[i]))
  }

  function Swapped(line: Line): Line {
    line.(debit := line.credit, credit := line.debit)
  }

  function SwappedLines(lines: seq<Line>): (swapped: seq<Line>)
    ensures |swapped| == |lines|
  {
    seq(|lines|, i requires 0 <= i < |lines| => Swapped(lines[i]))
  }

  function WithPeriod(periods: map<PeriodKey, PeriodStatus>, key: PeriodKey): map<PeriodKey, PeriodStatus> {
    if key in periods then periods else periods[key := OPEN]
  }

  /** The entry takes the next number of its entity and year and enters the books. */
  function Numbering(l: Ledger, entity: EntityId, year: int): Ledger {
    l.(counters := l.counters[(entity, year) := Counter(l, entity, year) + 1])
  }

  // ---- Operations ----

  function CreateDraft(l: Ledger, master: Master, input: EntryInput, user: UserId): Outcome {
    var key := PeriodOf(input.entity, input.entryDate);
    var ready := l.(periods := WithPeriod(l.periods, key));
    if !Balanced(input.lines) || !NoZeroLines(input.lines) then Outcome(l, Err(BadRequest))
    else if input.entity !in master.activeEntities then Outcome(l, Err(NotFound))
    else if ready.periods[key] == LOCKED then Outcome(ready, Err(Conflict))
    else if !LinesPostable(master, input.entity, input.lines) then Outcome(ready, Err(BadRequest))
    else
      var e := Entry(input.entity, key, input.entryDate, DRAFT, Unnumbered,
                     StoreLines(input.entity, input.lines), user, None, None);
      Outcome(ready.(entries := l.entries + [e]), Ok(|l.entries|))
  }

  function WithStatus(l: Ledger, id: EntryId, status: EntryStatus): Ledger
    requires id < |l.entries|
  {
    l.(entries := l.entries[id := l.entries[id].(status := status)])
  }

  function Submit(l: Ledger, id: EntryId): Outcome {
    if id >= |l.entries| then Outcome(l, Err(NotFound))
    else if l.entries[id].status != DRAFT then Outcome(l, Err(Conflict))
    else Outcome(WithStatus(l, id, PENDING_APPROVAL), Ok(id))
  }

  function Approve(l: Ledger, id: EntryId, approver: UserId): Outcome {
    if id >= |l.entries| then Outcome(l, Err(NotFound))
    else if l.entries[id].status != PENDING_APPROVAL then Outcome(l, Err(Conflict))
    else if l.entries[id].createdBy == approver then Outcome(l, Err(BadRequest))
    else
      var e := l.entries[id].(status := APPROVED, approvedBy := Some(approver));
      Outcome(l.(entries := l.entries[id := e]), Ok(id))
  }

  function Reject(l: Ledger, id: EntryId): Outcome {
    if id >= |l.entries| then Outcome(l, Err(NotFound))
    else if l.entries[id].status != PENDING_APPROVAL then Outcome(l, Err(Conflict))
    else Outcome(WithStatus(l, id, REJECTED), Ok(id))
  }

  function Post(l: Ledger, id: EntryId): Outcome {
    if id >= |l.entries| then Outcome(l, Err(NotFound))
    else
      var e := l.entries[id];
      if e.status != APPROVED then Outcome(l, Err(Conflict))
      else if e.period !in l.periods || l.periods[e.period] != OPEN then Outcome(l, Err(Conflict))
      else if Abs((Sum(e.lines, DebitOf) - Sum(e.lines, CreditOf)) as real) > TOLERANCE then Outcome(l, Err(BadRequest))
      else
        var year := e.entryDate.year;
        var numbered := Numbering(l, e.entity, year);
        var posted := e.(status := POSTED, number := Numbered(year, Counter(numbered, e.entity, year)));
        Outcome(numbered.(entries := l.entries[id := posted]), Ok(id))
  }

  function Reverse(l: Ledger, id: EntryId, user: UserId, now: Date): Outcome {
    if id >= |l.entries| then Outcome(l, Err(NotFound))
    else
      var original := l.entries[id];
      var key := PeriodOf(original.entity, now);
      var ready := l.(periods := WithPeriod(l.periods, key));
      if original.status != POSTED then Outcome(l, Err(Conflict))
      else if ready.periods[key] != OPEN then Outcome(l, Err(Conflict))
      else
        var numbered := Numbering(ready, original.entity, now.year);
        var number := Numbered(now.year, Counter(numbered, original.entity, now.year));
        var reversal := Entry(original.entity, key, now, POSTED, number,
                              SwappedLines(original.lines), user, Some(user), Some(id));
        var entries := l.entries[id := original.(status := REVERSED)] + [reversal];
        Outcome(numbered.(entries := entries), Ok(|l.entries|))
  }

  function PostSystem(l: Ledger, master: Master, input: EntryInput, user: UserId): Outcome {
    var key := PeriodOf(input.entity, input.entryDate);
    var ready := l.(periods := WithPeriod(l.periods, key));
    if !Balanced(input.lines) || !NoZeroLines(input.lines) then Outcome(l, Err(BadRequest))
    else if input.entity !in master.activeEntities then Outcome(l, Err(NotFound))
    else if ready.periods[key] != OPEN then Outcome(l, Err(Conflict))
    else if !LinesPostable(master, input.entity, input.lines) then Outcome(l, Err(BadRequest))
    else
      var year := input.entryDate.year;
      var numbered := Numbering(ready, input.entity, year);
      var number := Numbered(year, Counter(numbered, input.entity, year));
      var e := Entry(input.entity, key, input.entryDate, POSTED, number,
                     StoreLines(input.entity, input.lines), user, Some(user), None);
      Outcome(numbered.(entries := l.entries + [e]), Ok(|l.entries|))
  }

  /** An entry not yet posted or rejected keeps its period from being locked. */
  predicate Unresolved(e: Entry) {
    e.status == DRAFT || e.status == PENDING_APPROVAL || e.status == APPROVED
  }

  function LockPeriod(l: Ledger, key: PeriodKey): Outcome {
    if key !in l.periods then Outcome(l, Err(NotFound))
    else if exists i :: 0 <= i < |l.entries| && l.entries[i].period == key && Unresolved(l.entries[i]) then
      Outcome(l, Err(Conflict))
    else Outcome(l.(periods := l.periods[key := LOCKED]), Ok(0))
  }

  // ---- Runs ----

  datatype Op =
    | OpCreateDraft(input: EntryInput, user: UserId)
    | OpSubmit(id: EntryId)
    | OpApprove(id: EntryId, user: UserId)
    | OpReject(id: EntryId)
    | OpPost(id: EntryId)
    | OpReverse(id: EntryId, user: UserId, now: Date)
    | OpPostSystem(input: EntryInput, user: UserId)
    | OpLockPeriod(key: PeriodKey)

  /** One call of the engine, with the master data and the clock it meets. */
  datatype Step = Step(master: Master, op: Op)

  function Apply(l: Ledger, s: Step): Outcome {
    match s.op
    case OpCreateDraft(input, user) => CreateDraft(l, s.master, input, user)
    case OpSubmit(id) => Submit(l, id)
    case OpApprove(id, user) => Approve(l, id, user)
    case OpReject(id) => Reject(l, id)
    case OpPost(id) => Post(l, id)
    case OpReverse(id, user, now) => Reverse(l, id, user, now)
    case OpPostSystem(input, user) => PostSystem(l, s.master, input, user)
    case OpLockPeriod(key) => LockPeriod(l, key)
  }

  function Run(l: Ledger, steps: seq<Step>): Ledger
    decreases |steps|
  {
    if steps == [] then l else Run(Apply(l, steps[0]).ledger, steps[1..])
  }
}
