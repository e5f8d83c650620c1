# Financial kernel: a verified model

A Dafny 4.11 model of the platform's financial kernel and the services that post to it, with proofs about every
run. `dafny verify dfyconfig.toml` checks the whole project.

The posting engine is a state machine over journal entries, fiscal periods and per-entity, per-year counters. Fixed
assets, bank reconciliation, commissions and accounts payable post through it; trial balance and consolidation read
it; budgets read actuals from it; the API rate limiter stands alone.

## How the model is built

Each service that updates rows is a class whose fields are its tables (`Engine`, `AssetService`,
`ReconciliationService`, `PlanService`, `CommissionService`, `PayablesService`, `ProcurementService`,
`BudgetingService`, `RateLimitService`). Each method is proved to leave exactly the state, and return exactly the
result, that a function on values gives (`Ledger.Post`, `AccountsPayable.VoucherPosted` and so on). The theorems are
about sequences of those functions: a `Step` datatype names every operation, a run is any sequence of them with any
arguments, and invariants are proved of each step and carried along every run. Beside each function stands an outcome
lemma in a `...Rows` module: which calls are accepted, why the others are refused, and the rows and journal lines an
accepted one leaves, in terms of stored columns and with the numbers spelled out. The engine's operations change the
journal in seven ways (`Kernel`), so an invariant of the journal is proved seven times rather than eight times per
service.

Amounts are in cents. A `real` is an amount as a caller supplies it or as a service computes it; an `int` is an amount
as a `numeric(18,2)` column keeps it, and `Money.Store` is the rounding of that column (half away from zero), while
`Money.RoundHalfUp` is `Math.round` (ECMA-262 2022, section 21.3.2.28: half goes up). Many of the exact conditions
below come from the difference between an amount that is checked and the amount that is stored.

| files | what they hold |
|---|---|
| `Money`, `Sums`, `Calendar`, `FiscalPeriods` | rounding, sums over sequences, UTC months, how periods are named and bounded |
| `Ledger`, `PostingEngine`, `Kernel`, `Reversal`, `TrialBalance`, `LedgerRuns`, `JournalNumber`, `Consolidation`, `ControlAccount` | the engine, its invariants and the views on it |
| `Depreciation`, `FixedAssets`, `AssetLifetime`, `RegisterRuns`, `RegisterStatus`, `LateMonth`, `EarlyFull` | straight-line depreciation and disposal (IAS 16, paragraphs 62 and 71) |
| `Matching`, `BankReconciliation`, `ReconciliationRuns`, `ReconciliationSharing`, `ReconciliationGap`, `SharedLine` | first-fit matching, sessions, sign-off, book lines that sessions share |
| `CommissionPlan`, `Commission`, `CommissionShape`, `CommissionLifecycle`, `CommissionRuns`, `CommissionAccrual`, `ReversedCommission` | tier schedules, what they pay, and the way to payment |
| `TaxCodes`, `AccountsPayable`, `VoucherJournals`, `PayablesRuns`, `Procurement`, `PurchasingRuns`, `OrderedInvoice` | invoices, vouchers, three-way matches, the vendor ledger and the control account |
| `Budgeting`, `BudgetRuns`, `BudgetReplay`, `OddTransfer` | availability, totals, replay of records |
| `RateLimiter` | the fixed-window counter |
| `EngineRows`, `BalanceRows`, `AssetRows`, `SessionRows`, `PlanRows`, `CalculationRows`, `PayablesRows`, `ProcurementRows`, `BudgetRows` | what each call accepts and the rows it leaves, column by column |

## Where the code does less than it says

Each promise below has two theorems: the exact condition under which the code keeps it, and an input on which it does
not.

- A system entry is checked to half a cent before its lines are rounded one by one, so posted books can drift
  (`TrialBalance.OneEntryCanDriftACent`); they stay exact if and only if every accepted system entry rounds evenly
  (`LedgerRuns.RunExact`). Entries that go through review are checked again after storing and always balance.
- The schema describes a depreciation entry's `netBookValue` as cost less accumulated depreciation
  (prisma/schema.prisma:6418). `Math.round` makes it a cent more exactly when the month's share falls on half a cent
  (`AssetLifetime.DepreciatePosts`, `LateMonth.NetBookValueIsACentHigh`).
- A month run late is posted to the ledger but lost to the stored accumulation, because the latest month wins
  (`Depreciation.AccumulationIsSum`); disposal then leaves a balance on accumulated depreciation
  (`RegisterRuns.LifetimeConservation`, `LateMonth.LateMonthIsLost`). It can also complete the asset, whose accumulation
  then stays below cost for as long as the month run last is not the latest (`RegisterStatus.FullExactly`,
  `EarlyFull.FullBelowCost`).
- A disposal can be posted if and only if something has been depreciated and the proceeds round to a cent or more and
  do not fall on certain half cents (`AssetLifetime.DisposalAccepted`, `LateMonth.DisposalsRefused`).
- A signed-off statement agrees with its book lines to a cent per automatic match, counting a line as often as it was
  matched (`ReconciliationGap.SignedOffGap`). Only matches of the same session are kept off a matched book line
  (apps/api/src/bank-reconciliation/bank-reconciliation.service.ts:111-115), so two sessions can share one. `autoMatch`
  cannot make them share, in whatever order its queries answer, if and only if no open statement line is compatible
  with an available book line that another session has named (`ReconciliationSharing.AutoMatchSharesExactly`, and over
  runs `ReconciliationSharing.RunSharesExactly`); otherwise a statement can be signed off 100.00 away from its book
  lines (`SharedLine.SignedOffOnOneLine`).
- A tier narrower than its rounding is accepted and then stored closed (`CommissionPlan.StoredSchedule`,
  `CommissionPlan.TierCanClose`).
- The DTO asks a commission rate only to be a number
  (apps/api/src/commissions/dto/commission-plan.dto.ts:30-36), and neither it nor `validateRateShape` refuses a
  negative one. Gross commission never falls as the basis grows if and only if no rate is negative
  (`CommissionShape.GrossRisesExactly`, `CommissionShape.NegativeRateIsAccepted`).
- Past the cap of a capped schedule a part of the basis can earn more than its part of the commission
  (`CommissionShape.ProratesExactlyWhenUncapped`, `CommissionShape.HalfCanEarnTheWhole`).
- Gross, tax and net of a commission are rounded one by one, so an approved calculation may be impossible to accrue
  (`CommissionAccrual.CalculatedBalances`, `CommissionAccrual.ApprovedButNeverPayable`), though the schema takes the
  entry to be correct and balanced (prisma/schema.prisma:7480).
- `adjust` does not check the assignment it recalculates, so it can leave an assignment with two active calculations
  (`CommissionRuns.AdjustKeepsOneActive`, `CommissionAccrual.AdjustCanDoubleAnAssignment`).
- Reversing an accrued calculation posts nothing, so the payable account keeps owing it
  (`CommissionRuns.StepStanding`, `CommissionRuns.PayableAccountIsPayableRows`,
  `ReversedCommission.ReversalLeavesTheDebt`).
- The vendor ledger is documented as one row per posted invoice (prisma/schema.prisma:4133-4136), but completing a
  three-way match posts its invoice without one, on a control account of the caller's choice. Statement, control
  account and open invoices agree under the conditions of `PurchasingRuns.RecordsAgreeExactly` and
  `PurchasingRuns.StatementIsControlExactly`; one matched and paid invoice breaks them
  (`OrderedInvoice.StatementMissesTheInvoice`).
- A transfer of an odd half cent between budget lines makes money: both results round away from zero
  (`BudgetRuns.TransferKeepsTotal`), and its record no longer replays (`BudgetReplay.TransferReplays`); the input is
  `OddTransfer.TransferMakesACent`.
- The `rate` column of a tax code is read as a percentage by commission calculation
  (apps/api/src/commissions/commission-calculation.service.ts:294-295) and as a fraction by payment vouchers
  (apps/api/src/accounts-payable/accounts-payable.service.ts:302-312). The two withhold the same if and only if both
  are under half a cent (`TaxCodes.ReadingsAgreeExactly`, `TaxCodes.FiveIsReadTwice`). The model follows each.

## Model

| member | source | states |
|---|---|---|
| PostingEngine.Engine.AssertNoZeroLines | apps/api/src/general-ledger/posting-engine.service.ts:467-476 | accepts exactly the lines that have one side and not both, and are not zero on both |
| PostingEngine.Engine.AssertLinesPostable | apps/api/src/general-ledger/posting-engine.service.ts:478-506 | accepts exactly when every account is activated, postable and active for the entity |
| PostingEngine.Engine.GetOrCreateFiscalPeriod | apps/api/src/general-ledger/posting-engine.service.ts:527-545 | adds at most the open period of the entity and calendar month of the date, and returns its status |
| PostingEngine.Engine.NextNumber | apps/api/src/general-ledger/posting-engine.service.ts:161-168 | advances the counter of the entity and year by one, from one, and returns it |
| PostingEngine.Engine.CreateDraft | apps/api/src/general-ledger/posting-engine.service.ts:31-85 | the whole new journal and result, with the order of the checks: a failed account check leaves the period it created |
| PostingEngine.Engine.SubmitForApproval | apps/api/src/general-ledger/posting-engine.service.ts:91-99 | DRAFT to PENDING_APPROVAL and nothing else; other statuses conflict |
| PostingEngine.Engine.Approve | apps/api/src/general-ledger/posting-engine.service.ts:101-117 | PENDING_APPROVAL to APPROVED by someone other than the preparer, and nothing else |
| PostingEngine.Engine.Reject | apps/api/src/general-ledger/posting-engine.service.ts:119-130 | PENDING_APPROVAL to REJECTED and nothing else |
| PostingEngine.Engine.Post | apps/api/src/general-ledger/posting-engine.service.ts:137-200 | an approved entry of an open period whose stored lines balance takes the next number; every other case changes nothing |
| PostingEngine.Engine.Reverse | apps/api/src/general-ledger/posting-engine.service.ts:206-303 | the original becomes REVERSED and a numbered, posted entry with swapped sides is added in the month of the clock; no balance check is made |
| PostingEngine.Engine.PostSystemEntry | apps/api/src/general-ledger/posting-engine.service.ts:316-406 | a balanced, postable system entry enters the books at once under the next number; a refused one leaves no trace |
| PostingEngine.Engine.LockPeriod | apps/api/src/general-ledger/posting-engine.service.ts:412-448 | locks a period exactly when it holds no DRAFT, PENDING_APPROVAL or APPROVED entry |
| EngineRows.SystemEntryRows | apps/api/src/general-ledger/posting-engine.service.ts:316-406 | an entry is taken if and only if debits and credits differ by half a cent at most and are not both nothing, each line has one side, the entity is active, the month is missing or OPEN and the accounts are usable; the first that fails gives the error, and the row, its month and its number follow from the date supplied |
| EngineRows.DraftRows | apps/api/src/general-ledger/posting-engine.service.ts:31-85 | the same for a draft, which only a LOCKED month shuts out, and which keeps the month it creates when an account is refused |
| EngineRows.ReviewRows | apps/api/src/general-ledger/posting-engine.service.ts:91-130 | submitForApproval, approve and reject: from which status, by whom and to which, one entry changing and nothing else |
| EngineRows.PostRows | apps/api/src/general-ledger/posting-engine.service.ts:137-200 | an APPROVED entry of an OPEN period whose stored sides agree takes the next number of the year of its own date |
| EngineRows.ReverseRows | apps/api/src/general-ledger/posting-engine.service.ts:206-303 | accepted if and only if the entry is POSTED and the month of the clock is missing or OPEN; the new entry is dated now, in that month, takes the next number of that year and no other, and has the sides exchanged |
| EngineRows.LockRows | apps/api/src/general-ledger/posting-engine.service.ts:412-448 | a known period is locked if and only if each of its entries is POSTED, REVERSED or REJECTED |
| Kernel.StepMakes | apps/api/src/general-ledger/posting-engine.service.ts:31-448 | each of the eight operations changes the journal in one of seven ways, and a failing one at most opens a period |
| LedgerRuns.StepSound | apps/api/src/general-ledger/posting-engine.service.ts:31-448 | one call of any operation keeps periods, numbers, links and balances sound, and only extends the journal |
| LedgerRuns.EveryRunSound | apps/api/src/general-ledger/posting-engine.service.ts:31-448 | every journal reachable from the empty one is sound |
| LedgerRuns.GapFreeNumbering | apps/api/src/general-ledger/posting-engine.service.ts:161-181 | in every reachable journal the numbers of an entity and year are exactly 1 to the counter, each held once, by entries in the books dated in that year |
| LedgerRuns.FailureConsumesNothing | apps/api/src/general-ledger/posting-engine.service.ts:137-181 | a call that fails consumes no number and changes no entry |
| JournalNumber.ParseRender | apps/api/src/general-ledger/posting-engine.service.ts:348 | reading the rendered number from the right recovers code, year and number, for codes with dashes, years of either sign and numbers past 999999 |
| JournalNumber.RenderedInSix | apps/api/src/general-ledger/posting-engine.service.ts:348 | below a million the number stands in exactly its six decimal digits behind the code, the sign JE and the year |
| JournalNumber.RenderedNumbersUnique | apps/api/src/general-ledger/posting-engine.service.ts:339-363 | with distinct entity codes no two entries of a reachable journal share a rendered number |
| LedgerRuns.LockedPeriodsAreFrozen | apps/api/src/general-ledger/posting-engine.service.ts:412-448 | from any reachable journal on, a locked period stays locked, gains no entry, keeps its lines, and changes only POSTED to REVERSED |
| LedgerRuns.PeriodIsMonthOfDate | apps/api/src/general-ledger/posting-engine.service.ts:527-545 | in every reachable journal the instant of an entry's date falls in the one calendar month that its period names |
| Calendar.DateIsInItsMonth | apps/api/src/general-ledger/posting-engine.service.ts:533-534 | the instant of a date lies between the starts of a month and the next if and only if that month is its own |
| FiscalPeriods.PeriodNamesUnique | apps/api/src/general-ledger/posting-engine.service.ts:532-538 | the names by which periods are found agree if and only if year and month do |
| FiscalPeriods.PeriodBoundsDate | apps/api/src/general-ledger/posting-engine.service.ts:533-534 | a date is never before its period's start, and after its period's end exactly in the last second of the month |
| Reversal.LinksKept | apps/api/src/general-ledger/posting-engine.service.ts:206-303 | every change keeps: links point back to a REVERSED entry with swapped lines, no entry is reversed twice, each REVERSED entry has its reversal |
| Reversal.ChainAlternates | apps/api/src/general-ledger/posting-engine.service.ts:206-303 | along a chain only the last member is not REVERSED, and the lines alternate between the first entry and its swap, entities and dimensions equal |
| Reversal.ChainsPartition | apps/api/src/general-ledger/posting-engine.service.ts:206-303 | the chains of the entries that reverse nothing are disjoint and cover the journal |
| LedgerRuns.ReversalChains | apps/api/src/general-ledger/posting-engine.service.ts:206-303 | in every reachable journal a chain ends POSTED, its other members are REVERSED, and under every filter by entity, account and dimensions it nets to its first entry or to zero, by the parity of its length |
| LedgerRuns.BooksNetToStandingEntries | apps/api/src/general-ledger/posting-engine.service.ts:206-303 | after every run POSTED and REVERSED entries together net, under every filter, to the POSTED entries an even number of reversals deep |
| TrialBalance.StepExact | apps/api/src/general-ledger/posting-engine.service.ts:316-318 | a call keeps every posted entry balanced to the cent if and only if it is no accepted system entry that rounds unevenly |
| LedgerRuns.RunExact | apps/api/src/general-ledger/posting-engine.service.ts:316-406 | a run ends with every posted entry balanced to the cent if and only if it started so and every accepted system entry rounds evenly |
| TrialBalance.OneEntryCanDriftACent | apps/api/src/general-ledger/posting-engine.service.ts:454-465 | a system entry that passes the checks and is stored a whole cent out of balance |
| LedgerRuns.TrialBalanceDrift | apps/api/src/general-ledger/general-ledger-query.service.ts:37-75 | after every run total debit and credit differ by at most half a cent for each posted entry nobody else approved and a cent for each of its lines, half a cent a line when no side is negative |
| LedgerRuns.TrialBalanceExact | apps/api/src/general-ledger/general-ledger-query.service.ts:37-75 | when system entries are in whole cents every trial balance of every run balances exactly |
| LedgerRuns.ReviewedEntriesBalance | apps/api/src/general-ledger/posting-engine.service.ts:137-159 | an entry in the books that a second person approved balances exactly, whatever was supplied |
| TrialBalance.GroupByAccount | apps/api/src/general-ledger/general-ledger-query.service.ts:49-72 | the map grouping gives each account that occurs one row with the sums of its debits and credits, and keeps both totals |
| TrialBalance.PostedUnion | apps/api/src/consolidation/consolidation.service.ts:76-85 | what two disjoint sets of entities post together is the sum of what each posts, for any weight of a line |
| BalanceRows.QueryRows | apps/api/src/general-ledger/general-ledger-query.service.ts:37-72 | for every journal, the lines read are those of POSTED entries, of the period if one is asked for, and on the entities asked for: what each further line adds |
| BalanceRows.StatementRows | apps/api/src/consolidation/consolidation.service.ts:112-179 | which side each account type stands on, and what each row and each elimination adds to the totals and to net income |
| Consolidation.GetConsolidatedTrialBalance | apps/api/src/consolidation/consolidation.service.ts:72-130 | not found for an unknown group; otherwise rows group the posted lines of the parent and its children, each once, with gross and net totals and what eliminations take off both |
| Consolidation.ConsolidationAddsUp | apps/api/src/consolidation/consolidation.service.ts:72-104 | for any weight of a line the group is the sum of the distinct members, however often a member is listed |
| Consolidation.GroupIsParentAndChildren | apps/api/src/consolidation/consolidation.service.ts:72-104 | for any weight of a line a group is its parent and, each once, the children other than the parent |
| Consolidation.SheetGap | apps/api/src/consolidation/consolidation.service.ts:132-179 | assets less liabilities and equity is net income plus the excess of debits, for any rows and any chart of accounts |
| Consolidation.FlagMeansNoIncome | apps/api/src/consolidation/consolidation.service.ts:158-179 | on exactly balanced books the balances flag is raised if and only if consolidated net income is zero |
| FixedAssets.AssetService.CreateFixedAsset | apps/api/src/fixed-assets/fixed-assets.service.ts:38-68 | the new register for each outcome; residual above cost and a known number are refused |
| FixedAssets.AssetService.RunDepreciation | apps/api/src/fixed-assets/fixed-assets.service.ts:96-188 | the assets in turn, as DepreciateAll says; the first failure ends the run and leaves the earlier ones depreciated |
| FixedAssets.AssetService.DepreciateAsset | apps/api/src/fixed-assets/fixed-assets.service.ts:110-186 | one asset of a run, as Depreciate says: skip, finish, or post the smaller of the monthly share and the rest |
| FixedAssets.AssetService.GetAccumulatedDepreciation | apps/api/src/fixed-assets/fixed-assets.service.ts:190-196 | the accumulation stored with the latest month |
| FixedAssets.AssetService.DisposeAsset | apps/api/src/fixed-assets/fixed-assets.service.ts:200-257 | the journal entry, the disposal record and the new status, or the refusal |
| AssetRows.AcquireRows | apps/api/src/fixed-assets/fixed-assets.service.ts:38-68 | which assets are taken into the register, and the row of one that is |
| AssetRows.SelectedRows | apps/api/src/fixed-assets/fixed-assets.service.ts:97-106 | a run takes the ACTIVE assets of the entity, if one is asked for, acquired up to the last second of the month |
| AssetRows.DepreciationRows | apps/api/src/fixed-assets/fixed-assets.service.ts:110-186 | a call posts the twelfth of a year of cost less residual, or what is left, on the first of the month from the expense to the accumulated account; it skips a month it has and completes an asset with nothing left |
| AssetRows.RunRows | apps/api/src/fixed-assets/fixed-assets.service.ts:96-188 | a run that succeeds does this once to each asset it takes, and nothing to any other |
| AssetRows.RunStops | apps/api/src/fixed-assets/fixed-assets.service.ts:110-162 | a run that fails has handled the assets before the one the engine refuses, and stops there |
| AssetRows.AccumulatedRows | apps/api/src/fixed-assets/fixed-assets.service.ts:190-196 | what has accumulated is what the row with the latest month says |
| AssetRows.DisposalRows | apps/api/src/fixed-assets/fixed-assets.service.ts:200-257 | the journal lines of a disposal by account and side, and the record with net book value and rounded gain |
| Depreciation.ClosedForm | apps/api/src/fixed-assets/fixed-assets.service.ts:119-175 | after k postings in increasing months the accumulation is min(k * p, base) and is what was posted |
| Depreciation.AccumulationIsSum | apps/api/src/fixed-assets/fixed-assets.service.ts:190-196 | the accumulation is the sum of the posted amounts if and only if the months were run in increasing order |
| Depreciation.FullAfterCeiling | apps/api/src/fixed-assets/fixed-assets.service.ts:119-135 | the base is used up after exactly ceil(base / p) postings |
| Depreciation.LifeWithinRounding | apps/api/src/fixed-assets/fixed-assets.service.ts:119-120 | rounding moves the end of the life by at most ceil(N / 2p) of its N months |
| Depreciation.PostableWhenHalfCent | apps/api/src/fixed-assets/fixed-assets.service.ts:119-120 | the monthly amount rounds to a cent or more if and only if the base is at least half a cent per month |
| AssetLifetime.DepreciatePosts | apps/api/src/fixed-assets/fixed-assets.service.ts:135-183 | what a posting call stores; the net book value is a cent above cost less accumulation exactly when the share falls on half a cent |
| AssetLifetime.FullWhenCostReached | apps/api/src/fixed-assets/fixed-assets.service.ts:177-183 | a posting call makes the asset FULLY_DEPRECIATED if and only if the stored accumulation then equals cost |
| AssetLifetime.DepreciateOtherwise | apps/api/src/fixed-assets/fixed-assets.service.ts:111-133 | a month already posted changes nothing, nothing left posts nothing, and under half a cent a month never posts |
| AssetLifetime.DepreciatePostsWhenLeft | apps/api/src/fixed-assets/fixed-assets.service.ts:119-162 | with an open month and usable accounts an asset with something left does post |
| AssetLifetime.DisposalAccepted | apps/api/src/fixed-assets/fixed-assets.service.ts:200-228 | the disposal entry passes the engine if and only if something was depreciated, the proceeds round to a cent or more, and they fall on no unbalancing half cent |
| AssetLifetime.DisposalGap | apps/api/src/fixed-assets/fixed-assets.service.ts:210-225 | the disposal lines are a cent out exactly on those half cents, and balance otherwise |
| RegisterRuns.DepreciationClosedForm | apps/api/src/fixed-assets/fixed-assets.service.ts:96-196 | the closed form, its sum, the number of postings and the life bound, for every asset of every reachable register |
| RegisterRuns.AccumulationMatchesPostings | apps/api/src/fixed-assets/fixed-assets.service.ts:190-196 | in every reachable register accumulation equals postings if and only if months increase |
| RegisterRuns.RerunChangesNothing | apps/api/src/fixed-assets/fixed-assets.service.ts:111-117 | running a month again after it succeeded changes neither register nor ledger |
| RegisterRuns.DisposedForGood | apps/api/src/fixed-assets/fixed-assets.service.ts:99-104 | no later step posts for a disposed asset or disposes of it again |
| RegisterRuns.LifetimeNet | apps/api/src/fixed-assets/fixed-assets.service.ts:139-257 | what all journal entries of a disposed asset put on any set of accounts |
| RegisterRuns.LifetimeExactly | apps/api/src/fixed-assets/fixed-assets.service.ts:139-257 | they net as if all that was posted had accumulated if and only if months increase, or the set holds both or neither of the expense and accumulated depreciation accounts |
| RegisterRuns.LifetimeConservation | apps/api/src/fixed-assets/fixed-assets.service.ts:96-257 | the same in every reachable register; where the accounts have separate roles, accumulated depreciation clears to zero, and expense plus loss less gain is cost less proceeds, if and only if months increase |
| RegisterStatus.FullExactly | apps/api/src/fixed-assets/fixed-assets.service.ts:124-183 | in every reachable register an asset that costs something and keeps no residual value is FULLY_DEPRECIATED if and only if its accumulation is its cost, when months increase; in any order, the accumulation of one that is FULLY_DEPRECIATED is its cost if and only if the month run last is the latest |
| EarlyFull.FullBelowCost | apps/api/src/fixed-assets/fixed-assets.service.ts:124-196 | a run after which an asset of 0.06 is FULLY_DEPRECIATED and 0.05 has accumulated |
| LateMonth.NetBookValueIsACentHigh | apps/api/src/fixed-assets/fixed-assets.service.ts:135-175 | a posting whose stored net book value is a cent more than cost less the stored accumulation |
| LateMonth.LateMonthIsLost | apps/api/src/fixed-assets/fixed-assets.service.ts:96-257 | a run of March, then February, then a sale: the late month stays on the accumulated account, and expense plus loss is too much by it |
| LateMonth.DisposalsRefused | apps/api/src/fixed-assets/fixed-assets.service.ts:200-228 | three disposals that no ledger takes: nothing depreciated, given away, sold below net book value for an amount that ends in half a cent |
| Matching.MatchAll | apps/api/src/bank-reconciliation/bank-reconciliation.service.ts:117-149 | the find-and-splice loop computes the greedy matching, and counts it |
| BankReconciliation.ReconciliationService.ImportStatement | apps/api/src/bank-reconciliation/bank-reconciliation.service.ts:24-51 | a new statement of unmatched lines, for an active bank account |
| BankReconciliation.ReconciliationService.CreateSession | apps/api/src/bank-reconciliation/bank-reconciliation.service.ts:63-81 | a new DRAFT session for a statement of the same account and entity |
| BankReconciliation.ReconciliationService.AutoMatch | apps/api/src/bank-reconciliation/bank-reconciliation.service.ts:98-152 | a match record and a matched flag for each greedy pair, and their number |
| BankReconciliation.ReconciliationService.ManualMatch | apps/api/src/bank-reconciliation/bank-reconciliation.service.ts:154-181 | one record for an unmatched line of the session's statement, or the refusal |
| BankReconciliation.ReconciliationService.RecordAdjustment | apps/api/src/bank-reconciliation/bank-reconciliation.service.ts:189-245 | a posted two-line entry, the line of it on the bank account that the database lists first matched to the statement line, or the refusal |
| BankReconciliation.ReconciliationService.ApproveSession | apps/api/src/bank-reconciliation/bank-reconciliation.service.ts:247-269 | approval by someone else exactly when every line of the statement is matched |
| SessionRows.ImportRows | apps/api/src/bank-reconciliation/bank-reconciliation.service.ts:24-51 | an active bank account gets the lines supplied, in cents and unmatched, and all other lines stay |
| SessionRows.SessionStarts | apps/api/src/bank-reconciliation/bank-reconciliation.service.ts:63-81 | a session starts if and only if the statement is there and of the same account and entity |
| SessionRows.AutoMatchRows | apps/api/src/bank-reconciliation/bank-reconciliation.service.ts:98-152 | each record added joins an open line of the statement with an available posted line at most 432 000 000 ms away whose debit, for a deposit, or credit is within a cent of the amount; no row is used twice, exactly the joined lines become matched, and no line left open meets an available posted line |
| SessionRows.ManualRows | apps/api/src/bank-reconciliation/bank-reconciliation.service.ts:154-181 | the refusals in order; any journal line that is there is accepted, and one line becomes matched |
| SessionRows.AdjustmentRows | apps/api/src/bank-reconciliation/bank-reconciliation.service.ts:189-245 | interest for deposits and charges for anything else, by an entry on the date of the line that debits the bank account for a deposit and credits it otherwise |
| SessionRows.ApprovalRows | apps/api/src/bank-reconciliation/bank-reconciliation.service.ts:247-269 | approved if and only if the session is a draft of somebody else and each line of the statement is matched |
| Matching.GreedyIsMatching | apps/api/src/bank-reconciliation/bank-reconciliation.service.ts:117-149 | each line is used at most once and every pair meets the amount and five-day tests |
| Matching.GreedyIsMaximal | apps/api/src/bank-reconciliation/bank-reconciliation.service.ts:117-149 | no leftover statement line is compatible with a leftover book line |
| Matching.GreedyIsHalfOfBest | apps/api/src/bank-reconciliation/bank-reconciliation.service.ts:117-149 | every one-to-one matching of the same lines has at most twice as many pairs |
| Matching.SecondRunMatchesNothing | apps/api/src/bank-reconciliation/bank-reconciliation.service.ts:98-152 | what the first run left over does not match, in any order |
| Matching.GreedyTakesFirst | apps/api/src/bank-reconciliation/bank-reconciliation.service.ts:125-147 | a statement line takes the first book line in the order of the query that fits it and that no earlier pair has taken |
| Matching.GreedyTakesInTurn | apps/api/src/bank-reconciliation/bank-reconciliation.service.ts:118-147 | statement lines are taken in the order of the query |
| SessionRows.CompatibleMeets | apps/api/src/bank-reconciliation/bank-reconciliation.service.ts:122-132 | fitting means at most 432 000 000 ms apart, and for a deposit a debit, otherwise a credit, within a cent of the amount |
| ReconciliationRuns.MatchedExactlyOnce | apps/api/src/bank-reconciliation/bank-reconciliation.service.ts:98-245 | in every reachable state a line is matched if and only if a record of any session names it, and then only one does |
| ReconciliationRuns.AutoMatchHalfOfBest | apps/api/src/bank-reconciliation/bank-reconciliation.service.ts:98-152 | the number autoMatch reports is at least half of the best matching, and is the number of records it adds |
| ReconciliationRuns.AutoMatchAgain | apps/api/src/bank-reconciliation/bank-reconciliation.service.ts:98-152 | an immediate second autoMatch changes nothing and reports zero |
| ReconciliationSharing.OneBookLinePerSession | apps/api/src/bank-reconciliation/bank-reconciliation.service.ts:98-245 | in every reachable state a session's automatic matches and adjustments name pairwise different journal lines |
| ReconciliationSharing.AutoMatchSharesExactly | apps/api/src/bank-reconciliation/bank-reconciliation.service.ts:98-152 | autoMatch keeps sessions off each other's journal lines, in whatever order its queries answer, if and only if no open line of the statement is compatible with an available journal line that another session has named |
| ReconciliationSharing.RunSharesExactly | apps/api/src/bank-reconciliation/bank-reconciliation.service.ts:98-245 | a run ends with no shared journal line when no automatic match of it had such a pair before it; its calls never share one, in whatever order their queries answer, if and only if they never meet such a pair |
| ReconciliationGap.SignedOffGap | apps/api/src/bank-reconciliation/bank-reconciliation.service.ts:98-269 | in every approved session the total of the lines matched by the machine or adjusted is within a cent per automatic match of their journal lines counted once plus the repeated ones; none repeats if and only if no two of them matched in different sessions have the same journal line |
| ReconciliationGap.GapWhenNeverRisky | apps/api/src/bank-reconciliation/bank-reconciliation.service.ts:98-269 | when no automatic match of the run had such a pair before it, that total is within a cent per automatic match of the distinct journal lines |
| SharedLine.SignedOffOnOneLine | apps/api/src/bank-reconciliation/bank-reconciliation.service.ts:63-81 | two sessions on one statement: signed off with 200.00 on the statement and one journal line of 100.00 |
| CommissionPlan.PlanService.ValidateRateShape | apps/api/src/commissions/commission-plan.service.ts:82-145 | accepts exactly a single rate or amount, or a gapless ascending schedule from zero once the tiers are sorted |
| CommissionPlan.PlanService.CreatePlan | apps/api/src/commissions/commission-plan.service.ts:147-189 | the stored plan, its amounts rounded by their columns, or the refusal |
| CommissionPlan.PlanService.UpdatePlan | apps/api/src/commissions/commission-plan.service.ts:269-316 | what a partial update leaves stored, including tiers left behind when tiering is switched off |
| PlanRows.ShapeRows | apps/api/src/commissions/commission-plan.service.ts:82-145 | a shape is accepted if and only if it has the one value of its type, or some arrangement of its tiers is numbered from 1, starts at zero, and has each tier with the one value end above its start where the next begins |
| PlanRows.TargetRows | apps/api/src/commissions/commission-plan.service.ts:50-73 | accepted if and only if the target the scope names is the only one given |
| PlanRows.CreateRows | apps/api/src/commissions/commission-plan.service.ts:147-189 | the refusals in order, and the plan as stored: cents, rates to four decimals |
| PlanRows.UpdateTieredRows | apps/api/src/commissions/commission-plan.service.ts:269-316 | update of a plan with tiers: by the tiers supplied or the old ones, a value beside them refused |
| PlanRows.UpdateFlatRows | apps/api/src/commissions/commission-plan.service.ts:269-316 | update of a plan without tiers: the values supplied, the old ones for the rest; old tiers stay behind unless an empty list is supplied |
| CommissionPlan.SuppliedOrderIrrelevant | apps/api/src/commissions/commission-plan.service.ts:114-145 | an accepted schedule is the same in whatever order its tiers are supplied |
| CommissionPlan.StoredSchedule | apps/api/src/commissions/commission-plan.service.ts:147-189 | what is stored of an accepted schedule is accepted again if and only if no tier closes under rounding |
| CommissionPlan.StepUsable | apps/api/src/commissions/commission-plan.service.ts:269-316 | a create or update leaves every plan usable if and only if it is refused or its tiers survive rounding |
| CommissionPlan.PlansStayUsable | apps/api/src/commissions/commission-plan.service.ts:147-316 | after any such sequence every stored plan passes validateRateShape for the type it was created with |
| CommissionPlan.PlansStayWalkable | apps/api/src/commissions/commission-plan.service.ts:147-316 | after any such sequence the tiers of every stored plan meet, start at zero and never run backwards |
| CommissionPlan.TierCanClose | apps/api/src/commissions/commission-plan.service.ts:147-189 | a plan whose tier from 0 to 0.004 is accepted, is stored from 0 to 0, and would be refused again |
| CommissionPlan.WholeCentTiersSurvive | apps/api/src/commissions/commission-plan.service.ts:82-145 | tiers in whole cents always survive rounding |
| Commission.ApplyPlan | apps/api/src/commissions/commission-calculation.service.ts:211-251 | gross commission is the sum over tiers of rate on the band's share, or the fee of the band that holds the basis; which rate, amount or tier is reported |
| Commission.WalkTiers | apps/api/src/commissions/commission-calculation.service.ts:225-250 | the loop with its remaining counter and three early exits computes the band sum, and reports the tier that holds the basis, or the last |
| Commission.BasisProrated | apps/api/src/commissions/commission-calculation.service.ts:169-200 | the collected part is clamped, so the prorated basis is between nothing and the full basis |
| CalculationRows.BasisRows | apps/api/src/commissions/commission-calculation.service.ts:169-200 | the basis is the sale price, or under NET the price less the discount; under COLLECTED basis times total due is base times paid, with nothing when nothing is due or paid and all of it when overpaid; refused exactly when the discount exceeds the price or there is no schedule to collect on |
| CalculationRows.FlatPays | apps/api/src/commissions/commission-calculation.service.ts:215-223 | a plan without tiers pays its rate percent of the basis, or its fee |
| CalculationRows.BandPays | apps/api/src/commissions/commission-calculation.service.ts:225-250 | inside a band each further cent pays the rate of the band |
| CalculationRows.NothingPays | apps/api/src/commissions/commission-calculation.service.ts:225-250 | a tiered percentage pays nothing on a basis of zero or less |
| CalculationRows.TopPays | apps/api/src/commissions/commission-calculation.service.ts:225-250 | past the top of a capped schedule nothing more is paid |
| CalculationRows.FeePays | apps/api/src/commissions/commission-calculation.service.ts:239-245 | a tiered fee is the fee of the one band that holds the basis, upper end included, or nothing |
| CommissionShape.ShareGrows | apps/api/src/commissions/commission-calculation.service.ts:225-250 | between two bases a percentage commission changes by the difference at rates between the lowest and the highest, zero included |
| CommissionShape.GrossGrows | apps/api/src/commissions/commission-calculation.service.ts:211-251 | the same for whole plans, tiered or not |
| CommissionShape.GrossRisesExactly | apps/api/src/commissions/commission-calculation.service.ts:211-251 | a plan's gross commission never falls as the basis grows if and only if no rate it pays at is negative |
| CommissionShape.NegativeRateIsAccepted | apps/api/src/commissions/commission-plan.service.ts:82-145 | an accepted plan that pays more on the collected half of a sale than on all of it |
| CommissionShape.CollectedWithinFull | apps/api/src/commissions/commission-calculation.service.ts:169-251 | without negative rates the commission on what was collected never exceeds the commission on the full basis |
| CommissionShape.ProratesExactlyWhenUncapped | apps/api/src/commissions/commission-calculation.service.ts:225-250 | with rates that rise from tier to tier a part of the basis never earns more than its part of the commission if and only if the basis does not run past a cap, or earns nothing |
| CommissionShape.HalfCanEarnTheWhole | apps/api/src/commissions/commission-calculation.service.ts:225-250 | a capped plan under which half of a basis earns what all of it earns |
| CommissionShape.SupplyOrderIrrelevant | apps/api/src/commissions/commission-calculation.service.ts:229-250 | the order of the tiers changes neither acceptance nor any commission |
| CommissionShape.SplitPaysTheSame | apps/api/src/commissions/commission-calculation.service.ts:225-250 | splitting a tier at an interior point leaves an accepted schedule that pays the same on every basis |
| CommissionLifecycle.CommissionService.ComputeAll | apps/api/src/commissions/commission-calculation.service.ts:258-301 | resolution, basis, plan and tax in that order of failure, and the row with its three amounts rounded one by one |
| CommissionLifecycle.CommissionService.Calculate | apps/api/src/commissions/commission-calculation.service.ts:304-349 | a new row unless the assignment has an active one |
| CommissionLifecycle.CommissionService.Submit | apps/api/src/commissions/commission-calculation.service.ts:434-450 | CALCULATED to PENDING |
| CommissionLifecycle.CommissionService.Approve | apps/api/src/commissions/commission-calculation.service.ts:453-469 | PENDING to APPROVED |
| CommissionLifecycle.CommissionService.Reject | apps/api/src/commissions/commission-calculation.service.ts:472-483 | PENDING to REJECTED |
| CommissionLifecycle.CommissionService.Cancel | apps/api/src/commissions/commission-calculation.service.ts:408-419 | CALCULATED or PENDING to CANCELLED |
| CommissionLifecycle.CommissionService.Reverse | apps/api/src/commissions/commission-calculation.service.ts:422-431 | any active status to REVERSED, with no journal entry |
| CommissionLifecycle.CommissionService.MarkPayable | apps/api/src/commissions/commission-calculation.service.ts:495-534 | the accrual entry, and the account and journal remembered on the row, or the refusal |
| CommissionLifecycle.CommissionService.MarkPaid | apps/api/src/commissions/commission-calculation.service.ts:544-583 | the clearing entry on the remembered account |
| CommissionLifecycle.CommissionService.Adjust | apps/api/src/commissions/commission-calculation.service.ts:593-645 | the row reversed and the recalculation added, both or neither |
| CalculationRows.CalculateRows | apps/api/src/commissions/commission-calculation.service.ts:304-349 | the refusals in order; otherwise one row is added with what the plan pays on the one basis that fits the request, the tax on that and the rest, each rounded |
| CalculationRows.FlatCalculateRows | apps/api/src/commissions/commission-calculation.service.ts:215-349 | the gross of the stored row outright for a plan without tiers |
| CalculationRows.MovedRows | apps/api/src/commissions/commission-calculation.service.ts:408-483 | a change of status takes rows of the stages named, conflicts with the others and changes one column |
| CalculationRows.PayableRows | apps/api/src/commissions/commission-calculation.service.ts:495-534 | the accrual entry by account and side, dated now, and the columns the row remembers |
| CalculationRows.PaidRows | apps/api/src/commissions/commission-calculation.service.ts:544-583 | the payment entry against the account the row was accrued on |
| CalculationRows.AdjustRows | apps/api/src/commissions/commission-calculation.service.ts:593-645 | an active row is reversed and the recalculation, which names it, is added; or nothing happens |
| CommissionRuns.PayableAccountAgrees | apps/api/src/commissions/commission-calculation.service.ts:495-583 | after every run that uses an account only as payable account, its credit balance is the net commission of rows accrued on it and not paid, reversed rows included |
| CommissionRuns.PayableAccountIsPayableRows | apps/api/src/commissions/commission-calculation.service.ts:422-431 | it is what the PAYABLE rows say if and only if the reversed rows still accrued on it add up to nothing; so it is when no call of the run reversed or adjusted such a row |
| CommissionRuns.StepStanding | apps/api/src/commissions/commission-calculation.service.ts:422-645 | while it is, a call keeps it so if and only if it neither reverses nor adjusts a row that is PAYABLE on the account with a net amount |
| ReversedCommission.ReversalLeavesTheDebt | apps/api/src/commissions/commission-calculation.service.ts:422-431 | a run after which no calculation is active and the account owes 50.00 |
| CommissionRuns.EveryRunRowsSound | apps/api/src/commissions/commission-calculation.service.ts:304-645 | in every reachable state a row has the journals its status implies, and a superseded row is reversed and superseded once |
| CommissionRuns.AdjustKeepsOneActive | apps/api/src/commissions/commission-calculation.service.ts:593-645 | an adjustment keeps at most one active row per assignment if and only if it recalculates the same assignment or an idle one |
| CommissionRuns.AtMostOneActive | apps/api/src/commissions/commission-calculation.service.ts:304-309 | when adjustments recalculate their own assignment no run gives an assignment two active rows |
| CommissionAccrual.SplitRounds | apps/api/src/commissions/commission-calculation.service.ts:295-298 | two amounts of any sign round to their rounded sum if and only if what rounding adds to them does not carry |
| CommissionAccrual.FractionsDecide | apps/api/src/commissions/commission-calculation.service.ts:295-298 | for amounts that are not negative: it carries exactly when both fractions round down and their sum would not, or both round up and their sum would not |
| CommissionAccrual.PayableExactlyWhen | apps/api/src/commissions/commission-calculation.service.ts:495-520 | an approved row is marked payable if and only if its stored amounts balance, none is zero, and the ledger takes the entry |
| CommissionAccrual.CalculatedBalances | apps/api/src/commissions/commission-calculation.service.ts:336-343 | the amounts calculate stores balance if and only if tax and net round together |
| CommissionAccrual.ApprovedButNeverPayable | apps/api/src/commissions/commission-calculation.service.ts:495-520 | an approved row of 2.01 = 1.00 + 1.00 that no ledger can accrue |
| CommissionAccrual.AdjustCanDoubleAnAssignment | apps/api/src/commissions/commission-calculation.service.ts:593-645 | a run after which an assignment has two active rows |
| ControlAccount.ChangeMoves | apps/api/src/general-ledger/posting-engine.service.ts:31-448 | each change of the journal moves a filtered balance by the lines it brings into the books |
| ControlAccount.SparedUnmoved | apps/api/src/general-ledger/posting-engine.service.ts:31-448 | a call that brings no line on an account into the books leaves its balance alone |
| AccountsPayable.PayablesService.CreateInvoice | apps/api/src/accounts-payable/accounts-payable.service.ts:37-75 | a new direct draft invoice, or the refusal |
| AccountsPayable.PayablesService.JournalOf | apps/api/src/accounts-payable/accounts-payable.service.ts:111-116 | one expense line per invoice line and the unrounded total |
| AccountsPayable.PayablesService.PostInvoice | apps/api/src/accounts-payable/accounts-payable.service.ts:99-152 | the journal entry, the posted status and the vendor ledger credit, or the refusal |
| AccountsPayable.PayablesService.CreatePaymentVoucher | apps/api/src/accounts-payable/accounts-payable.service.ts:219-323 | the voucher with its deductions resolved and rounded, or the first failing check |
| AccountsPayable.PayablesService.CheckEach | apps/api/src/accounts-payable/accounts-payable.service.ts:230-244 | the first allocation that fails decides the error |
| AccountsPayable.PayablesService.ApprovePaymentVoucher | apps/api/src/accounts-payable/accounts-payable.service.ts:334-346 | DRAFT to APPROVED by someone other than the preparer |
| AccountsPayable.PayablesService.TotalsOf | apps/api/src/accounts-payable/accounts-payable.service.ts:364-386 | gross, net cash and the tax credits in the order authorities first appear |
| AccountsPayable.PayablesService.PayAllocated | apps/api/src/accounts-payable/accounts-payable.service.ts:411-416 | amountPaid grows by each allocation in turn |
| AccountsPayable.PayablesService.PostPaymentVoucher | apps/api/src/accounts-payable/accounts-payable.service.ts:354-439 | journal, invoices, vendor ledger and voucher together, or the refusal |
| AccountsPayable.PayablesService.CreatePaymentBatch | apps/api/src/accounts-payable/accounts-payable.service.ts:158-176 | a new draft batch, or the refusal |
| AccountsPayable.PayablesService.ApprovePaymentBatch | apps/api/src/accounts-payable/accounts-payable.service.ts:178-190 | DRAFT to APPROVED by someone other than the preparer |
| AccountsPayable.PayablesService.ProcessPaymentBatch | apps/api/src/accounts-payable/accounts-payable.service.ts:193-213 | the approved vouchers in turn; a failure leaves the earlier ones posted and the batch open |
| AccountsPayable.PayablesService.GetVendorStatement | apps/api/src/accounts-payable/accounts-payable.service.ts:566-581 | for the rows the query selects by vendor, entity and dates: each running balance is the sum of credits less debits so far, and the final one that of the selected rows |
| PayablesRows.InvoiceRows | apps/api/src/accounts-payable/accounts-payable.service.ts:37-75 | the refusals in order, and the draft as its columns keep it |
| PayablesRows.PostInvoiceRows | apps/api/src/accounts-payable/accounts-payable.service.ts:99-152 | the journal by account and side, dated like the invoice, and the vendor credited with the worth of all lines |
| PayablesRows.VoucherRows | apps/api/src/accounts-payable/accounts-payable.service.ts:219-323 | the first allocation whose invoice is missing, not the vendor's, not POSTED or left with less than the amount and a cent gives the error; then number and tax codes; the voucher keeps each deduction as the rate times the amount |
| PayablesRows.PostVoucherRows | apps/api/src/accounts-payable/accounts-payable.service.ts:354-439 | control debited with all that is allocated, cash credited with what is left, each authority once with all that is withheld for it; each invoice is paid what is allocated to it, and the vendor debited |
| PayablesRows.ProcessRows | apps/api/src/accounts-payable/accounts-payable.service.ts:193-213 | of an approved batch exactly the approved vouchers become POSTED, and are counted |
| PayablesRows.VouchersStop | apps/api/src/accounts-payable/accounts-payable.service.ts:200-205 | a run that fails has posted the approved vouchers before the one that is refused, and stops there with its error |
| PayablesRows.StatementRow | apps/api/src/accounts-payable/accounts-payable.service.ts:566-581 | which rows a statement takes, and what each adds to the balance |
| VoucherJournals.CreditsMatchDeductions | apps/api/src/accounts-payable/accounts-payable.service.ts:376-387 | each authority is credited exactly what the allocations deduct for it |
| VoucherJournals.CreditsGrouped | apps/api/src/accounts-payable/accounts-payable.service.ts:366-387 | an authority is listed once when some allocation deducts for it, and not otherwise |
| VoucherJournals.VoucherBalances | apps/api/src/accounts-payable/accounts-payable.service.ts:364-397 | the voucher journal balances for any allocations and deductions |
| VoucherJournals.VoucherPostsExactlyWhen | apps/api/src/accounts-payable/accounts-payable.service.ts:354-410 | an approved voucher posts if and only if gross, net cash and every authority total are not zero and the ledger takes the entry |
| VoucherJournals.InvoicePostsExactlyWhen | apps/api/src/accounts-payable/accounts-payable.service.ts:99-128 | a direct draft posts if and only if its total and every line value are not zero and the ledger takes the entry |
| Procurement.ProcurementService.CreateVendorInvoice | apps/api/src/procurement/procurement.service.ts:439-487 | a new invoice pending its match, or the refusal |
| Procurement.ProcurementService.CreateThreeWayMatch | apps/api/src/procurement/procurement.service.ts:505-539 | a new match of an order, a receipt against it and an invoice, or the refusal |
| Procurement.ProcurementService.ClearingJournal | apps/api/src/procurement/procurement.service.ts:573-582 | one debit per invoice line, to the accrual account where it bills an order line, and the unrounded total |
| Procurement.ProcurementService.CompleteThreeWayMatch | apps/api/src/procurement/procurement.service.ts:559-613 | the journal entry, the posted invoice and the account credited, or the refusal |
| ProcurementRows.BillRows | apps/api/src/procurement/procurement.service.ts:439-487 | the refusals in order, and the invoice pending its match |
| ProcurementRows.MatchRows | apps/api/src/procurement/procurement.service.ts:505-539 | the refusals in order, and the match |
| ProcurementRows.CompletionRows | apps/api/src/procurement/procurement.service.ts:559-613 | the journal by account and side, ordered lines on the clearing account, dated now, and what else changes |
| PurchasingRuns.ThreeBalances | apps/api/src/accounts-payable/accounts-payable.service.ts:99-439 | after every run of payables and procurement with one control account in no other role: control account, vendor statement, open direct invoices and posted order invoices, each in terms of the others |
| PurchasingRuns.StatementIsControlExactly | apps/api/src/accounts-payable/accounts-payable.service.ts:566-581 | a vendor's final statement balance is its net credit on the control account in that entity if and only if completed matches credited nothing to it there |
| PurchasingRuns.RecordsAgreeExactly | apps/api/src/procurement/procurement.service.ts:559-613 | exactly when, over all entities, the statement is the open direct invoices, the control account is, and the control account is all posted invoices less all payments |
| PurchasingRuns.ControlIsOpenInvoices | apps/api/src/procurement/procurement.service.ts:559-613 | when matches credit the same account for invoices of the order's vendor, the control account is the stored totals of all posted invoices less all payments on them |
| PurchasingRuns.NamedOrderIsOwnVendor | apps/api/src/procurement/procurement.service.ts:505-539 | a match pairs vendors that differ only for an invoice that names no order |
| PurchasingRuns.ControlIsOpenBalances | apps/api/src/accounts-payable/accounts-payable.service.ts:587-590 | where control account and direct invoices agree, it is within half a cent per posted direct invoice of total less amountPaid, and equal for whole-cent totals |
| OrderedInvoice.StatementMissesTheInvoice | apps/api/src/procurement/procurement.service.ts:559-613 | an order invoice of 100.00 that is matched and paid: the statement ends 100.00 below the open direct invoices, and below the control account when the match credited it |
| TaxCodes.ReadingsAgreeExactly | apps/api/src/accounts-payable/accounts-payable.service.ts:302-312 | the deduction at the rate as a fraction and at the rate as a percentage are stored as the same amount if and only if both are under half a cent |
| TaxCodes.FiveIsReadTwice | apps/api/src/commissions/commission-calculation.service.ts:294-295 | at a rate of 5, 1000.00 bears 50.00 under one reading and 5000.00 under the other |
| Budgeting.BudgetingService.CreateBudget | apps/api/src/budgeting/budgeting.service.ts:57-105 | a draft budget whose lines start with revised equal to original, or the refusal |
| Budgeting.BudgetingService.Submit | apps/api/src/budgeting/budgeting.service.ts:147-161 | DRAFT or REJECTED to SUBMITTED |
| Budgeting.BudgetingService.Approve | apps/api/src/budgeting/budgeting.service.ts:169-192 | SUBMITTED to APPROVED by someone other than the preparer |
| Budgeting.BudgetingService.Reject | apps/api/src/budgeting/budgeting.service.ts:194-208 | SUBMITTED to REJECTED |
| Budgeting.BudgetingService.Close | apps/api/src/budgeting/budgeting.service.ts:210-221 | APPROVED to CLOSED |
| Budgeting.BudgetingService.Revise | apps/api/src/budgeting/budgeting.service.ts:227-280 | the new revised amounts and the numbered revision record |
| Budgeting.BudgetingService.TransferAmount | apps/api/src/budgeting/budgeting.service.ts:286-344 | both lines changed, each rounded by its column, and the transfer record, or the refusal |
| Budgeting.BudgetingService.CreateCommitment | apps/api/src/budgeting/budgeting.service.ts:350-378 | a new open commitment within what is available |
| Budgeting.BudgetingService.ReleaseCommitment | apps/api/src/budgeting/budgeting.service.ts:385-408 | the released amount and status, with the half-cent tolerances |
| Budgeting.BudgetingService.CancelCommitment | apps/api/src/budgeting/budgeting.service.ts:410-421 | an open commitment is cancelled |
| Budgeting.BudgetingService.GetAvailableForLine | apps/api/src/budgeting/budgeting.service.ts:485-501 | not found for an unknown line, otherwise revised less posted actuals less what open commitments hold |
| BudgetRows.NothingSpent | apps/api/src/budgeting/budgeting.service.ts:485-501 | without entries the revised amount less what is open of the line's commitments is available |
| BudgetRows.EntrySpends | apps/api/src/budgeting/budgeting.service.ts:503-537 | a posted entry of the month with one line on the account, entity and dimensions: its debit lowers what is available by as much on a debit-normal account and raises it on any other, its credit the other way round |
| BudgetRows.EntryElsewhere | apps/api/src/budgeting/budgeting.service.ts:503-537 | an entry none of whose lines is posted, in the month and on the account, entity and dimensions changes nothing |
| BudgetRows.LineSpends | apps/api/src/budgeting/budgeting.service.ts:503-537 | what each further line of an entry changes, which fixes what is available for every journal |
| BudgetRows.CreateRows | apps/api/src/budgeting/budgeting.service.ts:57-105 | the refusals in order, and the budget with its lines in cents |
| BudgetRows.WorkflowRows | apps/api/src/budgeting/budgeting.service.ts:147-221 | a change of status takes the stages named and changes one column; approve refuses who made the budget |
| BudgetRows.RevisionRows | apps/api/src/budgeting/budgeting.service.ts:227-280 | taken if and only if the lines are the budget's own, each once; the record has the next number and each line's amount before and after |
| BudgetRows.TransferRows | apps/api/src/budgeting/budgeting.service.ts:286-344 | the refusals in order, and either amount and the record as rounded |
| BudgetRows.CommitmentRows | apps/api/src/budgeting/budgeting.service.ts:350-378 | refused beyond what is available, otherwise an OPEN commitment |
| BudgetRows.ReleaseRows | apps/api/src/budgeting/budgeting.service.ts:385-421 | what is still open can be released up to half a cent beyond its amount, and counts as released from half a cent below it; or cancelled |
| BudgetRuns.NeverOverspent | apps/api/src/budgeting/budgeting.service.ts:286-421 | with actuals fixed, no run of positive transfers, commitments, releases and cancellations takes a line's available amount below zero |
| BudgetRuns.EveryRunSound | apps/api/src/budgeting/budgeting.service.ts:227-421 | in every reachable state lines have their budget and open commitments hold no negative amount |
| BudgetRuns.TransferKeepsTotal | apps/api/src/budgeting/budgeting.service.ts:324-331 | a transfer keeps its budget's total if and only if its amount is no odd half cent or just one result is negative |
| BudgetRuns.TotalIsConstant | apps/api/src/budgeting/budgeting.service.ts:286-421 | without a revision, runs of such transfers and any commitments keep every budget's total |
| BudgetReplay.FetchedCount | apps/api/src/budgeting/budgeting.service.ts:231-235 | the count that revise compares accepts exactly changes that name lines of the budget, each once |
| BudgetReplay.RevisedReplays | apps/api/src/budgeting/budgeting.service.ts:227-280 | a revision keeps: amounts are the replay of the records, previousAmount the replayed value just before, numbers in turn |
| BudgetReplay.TransferReplays | apps/api/src/budgeting/budgeting.service.ts:309-331 | after a transfer the records replay if and only if both results round as the record does |
| OddTransfer.TransferMakesACent | apps/api/src/budgeting/budgeting.service.ts:324-331 | a run whose transfer of 1.005 adds a cent to its budget, and after which the records no longer replay |
| BudgetReplay.EveryRunReplays | apps/api/src/budgeting/budgeting.service.ts:227-421 | with transfers in whole cents every reachable state replays from originalAmount |
| RateLimiter.RateLimitService.CheckAndIncrement | apps/api/src/api-gateway/rate-limit.service.ts:56-77 | the counter after the call, the decision, what remains, and a reset at the next full minute |
| RateLimiter.CounterRows | apps/api/src/api-gateway/rate-limit.service.ts:57-69 | the counter of the minute goes up by one; its first request sets the expiry 60 000 ms ahead, and counters past their expiry are gone |
| RateLimiter.CountersTrack | apps/api/src/api-gateway/rate-limit.service.ts:57-69 | on every trace a window's counter counts its requests and is not cleared inside its own minute |
| RateLimiter.AllowedExactly | apps/api/src/api-gateway/rate-limit.service.ts:71-73 | a request is allowed if and only if fewer than its limit came before it for its key and minute |
| RateLimiter.AdmittedInMinute | apps/api/src/api-gateway/rate-limit.service.ts:56-77 | each minute admits the smaller of its requests and the limit: exactly so while the limit stays, and between its lowest and highest value while it changes |
| RateLimiter.AtMostTwiceTheLimit | apps/api/src/api-gateway/rate-limit.service.ts:20-24 | any 60 seconds admit at most twice the highest limit |
| RateLimiter.TwiceTheLimitCanPass | apps/api/src/api-gateway/rate-limit.service.ts:20-24 | a trace that passes twice the limit within two milliseconds |

## Left out

- RegisterRuns.LifetimeConservation: proceeds are the rounded proceeds of the disposal record.
- ReconciliationGap.SignedOffGap: no bound is given for manually matched lines, lines of a cent or less, journal lines with a negative side, and adjustments against the bank's own account. The code compares nothing for a manual match, the engine refuses no negative side, and the amount test reads one side only.
- PostingEngine.Engine.GetOrCreateFiscalPeriod: a period's name, start and end are not columns of the model; FiscalPeriods.PeriodNamesUnique and FiscalPeriods.PeriodBoundsDate say what they do.
- Procurement.ProcurementService.CreateThreeWayMatch: the quantity and price variances and the tolerance status kept with a match are left out; nothing that is posted depends on them.
- Procurement.ProcurementService.CompleteThreeWayMatch: the invoiced quantities of order lines and the order's status, which are updated after posting, are left out.
- PayablesRows.PostVoucherRows: the tax lines are stated as one per authority; their order, that of first appearance, is only in the contract of PayablesService.TotalsOf.
- Consolidation.GetConsolidatedTrialBalance: rows come in order of first use; sorting them by account code is left out.
- Commission.ApplyPlan: for plans as create and update leave them stored, which CommissionPlan.PlansStayWalkable proves of all of them.
- PurchasingRuns.ThreeBalances: for runs that use the account in no other role; a reversal of one of its entries is another role.
- BudgetRuns.NeverOverspent: revisions are excluded, since they set any amount without looking at what is available.
- Binary floating point: computed amounts are exact rationals, rounded where a column or `Math.round` rounds them.
- Interleaving inside a method: each method is one atomic step. `lockPeriod`, the accounts payable posts and `releaseCommitment` are not single transactions in the code.
- Identifiers: entries, rows, invoices and the like are numbered in order of creation, and ids drawn by the database for statements and sessions are parameters.
- Query order: where a query has no order, its result is a parameter that holds the right rows in any order.
- Master data (active entities and vendors, activated accounts, tax codes, assignments, resolved plans) is a parameter of each call, so it may differ from call to call.
- Clocks: the current time is a parameter, read once per step; the rate limiter's clock and its INCR fall on the same instant, on one server. Losing the EXPIRE after an INCR is not modelled.
- Foreign keys: a missing row that only a foreign key would refuse is not a separate error.
- Texts: descriptions, memos, notes, audit records, events, approval records and who acted where no check reads it.
- Row-level security, permissions, controllers and the DTO checks that are not named above.
- Resolving a commission plan by scope, previewing a calculation, deactivating a plan.
- Remitting withheld taxes, ageing, due payments and forecasts; tax schedules.
- Procurement beyond invoices and three-way matches: requisitions, quotations, receipts and their journal entries. A receipt is what the caller's id finds. The account that a completed match credited is read off its journal entry in the code, and is a field of the match in the model.
- Accounts receivable, which mirrors accounts payable.
- Minority interest, group set-up and ownership, summaries and dashboards.
- Budget variance, which repeats availability line by line.
