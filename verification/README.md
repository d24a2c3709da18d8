# Verified model of the exact-cost core

A Dafny 4.11 model of the parts of this FinOps repository that promise exactness or safety, with
proofs of those promises over all inputs, all runs or all reachable states.

- **Shared-cost allocation** (`ScaledMoney`, `LargestRemainder`, `Allocation`, `AllocationLaws`,
  `AllocationFairness`, `AllocationCounterexamples`): decimal strings as scaled integers, the largest-remainder split,
  three allocation rules and the coverage figure.
- **Control totals** (`CsvRecords`, `PlainDecimals`, `ControlTotals`, `ControlTotalsCompute`,
  `ControlTotalsAcceptance`, `ControlTotalsLaws`, `ControlTotalsFilters`, `ControlTotalsCells`): a CSV machine for section 2 of RFC 4180 with LF
  record ends, exact decimal sums, and grouped totals with an optional provider filter.
- **Agent review jobs** (`AgentJobs`, `AgentInvariant`, `AgentCommands`, `AgentWorkspace`, `AgentRuns`,
  `AgentHistory`): a job engine with leases, fencing tokens, bounded attempts, evidence hashes and
  second-person review, its composite command and the bounded worker.
- **Engagement configuration** (`JsonValues`, `ConfigRules`, `ConfigModel`, `ConfigGuards`,
  `ConfigMetadata`, `ConfigRetrieval`, `ConfigValidator`, `ConfigLaws`, `ConfigKept`, `ConfigTexts`,
  `ConfigMoments`, `ConfigSound`, `ConfigMeaning`, `ConfigBuilt`, `ConfigExample`): the problem-collecting
  validator against a declarative condition, and that condition against soundness of the typed configuration.
- **Money, rankings and sessions** (`Nanos`, `AiSpend`, `AiSpendLaws`, `AiSpendMeaning`, `AiSpendSources`,
  `AiSpendFetching`, `Accrual`, `AccrualMeaning`, `Attribution`, `FinioSessions`): nano-unit money, AI spend and its headline ownership, live
  rankings under linear accrual, and in-memory against signed sessions.

`Basics`, `Sequences`, `Tallies`, `RealSums`, `Digits` and `JsText` hold the shared vocabulary.

Programs that update state step by step are methods with loops or classes with fields, each proved
equal to a function of its inputs or old state; the functions are what the lemmas are about.

## Reading notes

Where the code and its comments disagree, the model follows the code:

- `sumScaled` (src/attribution/allocation.ts:66) slices from a negative index when a number has
  fewer digits than the scale but more than half as many, so 12 at scale 3 prints as 1.002.
- `distributeByWeight` (src/attribution/allocation.ts:84) promises parts that sum to the total;
  with negative weights the truncated quotas can overshoot, and line 95 then flips the leftover.
  There can also be too few positive remainders for the leftover, and then units are lost.
- Coverage (src/attribution/allocation.ts:45) is said never to be overstated. It takes absolute values,
  so a refund against a charge counts as coverage; and it reads the printed entries back (line 121), so
  a misprinted entry inflates it: 0.012 wholly attributed is reported as 8350 per cent.
- Python's `$` (scripts/acceptance/focus_control_totals.py:70 and 107-108) also matches before one
  final LF, so a quoted cell may end in one.
- `validIsoTimestamp` (src/engagement/config.ts:274) asks `Date.UTC` for the last day of a month, which reads
  the years 0 to 99 as 1900 to 1999: of all calendar dates it refuses only 0000-02-29.

The verifier is run as `dafny verify dfyconfig.toml`.

## Model

| member | source | states |
|---|---|---|
| `ScaledMoney.ReadsTheDecimal` | src/attribution/allocation.ts:71-78 | Reading a decimal at any scale at least as wide as its own gives its value times a power of ten, sign included |
| `ScaledMoney.RoundTripExactlyWhen` | src/attribution/allocation.ts:61-78 | For every integer and scale, reading the printed text back gives the integer if and only if it has at least `scale` digits or at most half as many |
| `ScaledMoney.CentsRoundTrip` | src/attribution/allocation.ts:61-69 | Every integer survives printing at scales 0 to 2, and at every larger scale some integer does not |
| `ScaledMoney.TwelveThousandths` | src/attribution/allocation.ts:66 | 12 at scale 3 prints as 1.002: the negative slice index inside the failing region |
| `ScaledMoney.ReadBackError` | src/attribution/allocation.ts:61-78 | Outside the faithful region the text denotes a strictly larger magnitude of the same sign |
| `ScaledMoney.MisprintIsTheError` | src/attribution/allocation.ts:61-78 | What is read back is the number plus an explicit error, computed from its leading digits: zero exactly in the faithful region, and of the sign of the number |
| `ScaledMoney.ConversionExactlyWhen` | src/attribution/allocation.ts:218-223 | `convertWithRate` yields the exact product of the two decimals if and only if the product lies in the faithful region |
| `LargestRemainder.HandOut` | src/attribution/allocation.ts:102 | The loop adds one unit to each of the first candidates until the leftover or the candidates run out, and to nothing else |
| `LargestRemainder.DistributeByWeight` | src/attribution/allocation.ts:86-104 | The in-place share loop computes the specified split for every total and weight list, empty and zero-sum lists included |
| `LargestRemainder.SplitIsExact` | src/attribution/allocation.ts:80-85 | With non-negative weights of positive sum the parts sum to the total exactly, sign included |
| `LargestRemainder.SplitKeepsTotalExactlyWhen` | src/attribution/allocation.ts:86-104 | For all totals and weights, negative ones included: the parts sum to the total if and only if the truncated quotas do not overshoot and the candidates cover the leftover |
| `LargestRemainder.SplitMissesBy` | src/attribution/allocation.ts:93-103 | For all weights of non-zero sum the parts sum to the total plus an explicit imbalance, read off the leftover and the number of candidates |
| `LargestRemainder.PositiveWeightSumKeepsTotalExactlyWhen` | src/attribution/allocation.ts:86-104 | With a positive weight sum the total is kept if and only if the leftover is not negative |
| `LargestRemainder.CandidatesSuffice` | src/attribution/allocation.ts:98-102 | With a positive weight sum there are at least as many positive remainders as leftover units, so the loop never runs out |
| `LargestRemainder.NegativeWeightOvershoots` | src/attribution/allocation.ts:93-95 | One unit over the weights 4, -1, -1 comes back as 2, 0, 0: the promise fails for negative weights |
| `LargestRemainder.WithinOneUnit` | src/attribution/allocation.ts:80-104 | Each part differs from its exact proportional quota by less than one unit |
| `LargestRemainder.SplitIsOdd` | src/attribution/allocation.ts:89-103 | Splitting the negated total negates every part |
| `LargestRemainder.SplitIsMonotone` | src/attribution/allocation.ts:96-102 | A smaller weight never gets a larger magnitude than a larger one |
| `LargestRemainder.WinnersRankFirst` | src/attribution/allocation.ts:96-102 | The extra units go to the largest remainders, ties to the earlier index |
| `LargestRemainder.RoundsTheLargestRemaindersUp` | src/attribution/allocation.ts:86-104 | With a positive weight sum every part is its exact quota rounded down or up, and of two parts the one rounded up had the larger remainder or, on a tie, the earlier index |
| `LargestRemainder.WithinTwoUnits` | src/attribution/allocation.ts:86-104 | With a negative weight sum every part is within two units of its exact quota |
| `Allocation.PushShares` | src/attribution/allocation.ts:178-180 | The inner loop appends one printed entry for each non-zero share, in target order |
| `Allocation.AllocateRow` | src/attribution/allocation.ts:148-186 | One turn of the loop appends and leaves unallocated what the row is specified to; `AllocationFairness.EveryRowIsFair` says what that is |
| `Allocation.DirectByProject` | src/attribution/allocation.ts:190-195 | The Map holds, in first-seen order, each project's summed direct cost |
| `Allocation.AllocateStaged` | src/attribution/allocation.ts:188-211 | The second phase splits every shared row over the attributed base, or nothing when the base is zero or nothing is shared |
| `Allocation.AllocateSharedCost` | src/attribution/allocation.ts:142-214 | The whole program: a mixed currency or unreadable amount is refused, otherwise allocations, unallocated cost and coverage are the specified ones |
| `AllocationFairness.EveryRowIsFair` | src/attribution/allocation.ts:150-213 | For every slice and rule the entries are those of the rows in order: the keyed tag charges the tagged project the whole amount, the even split charges each distinct target an equal share, the proportional rule charges each project by its direct cost, each to within one unit, largest remainders first and earlier names on ties, with one entry for each project charged |
| `AllocationFairness.EvenSharesAreEven` | src/attribution/allocation.ts:170-183 | No target of an even split is charged two units more than another, nor a later one more than an earlier |
| `AllocationFairness.OutcomeMeans` | src/attribution/allocation.ts:112-116 | A slice is refused if and only if a row is in another currency, or else an amount is not spelled as a number; otherwise its printed entries are fair at the largest scale of its amounts |
| `AllocationLaws.RowConserves` | src/attribution/allocation.ts:148-186 | Each row's amount is evidenced, allocated or unallocated, and counted once |
| `AllocationLaws.AllocationsAreGrounded` | src/attribution/allocation.ts:161-181 | Every allocation charges a shared row to its own tag, to one of its targets, or to a project with direct cost, according to the rule |
| `AllocationLaws.ControlTotalGap` | src/attribution/allocation.ts:142-214 | For every slice and rule: evidenced, allocated and unallocated cost exceed the control total by exactly the summed imbalances of the splits made |
| `AllocationLaws.TaggedAndEvenRulesConserve` | src/attribution/allocation.ts:142-186 | The keyed-tag and even-split rules keep the control total of every slice |
| `AllocationLaws.ProportionalRuleConserves` | src/attribution/allocation.ts:188-214 | The proportional rule keeps the control total of every slice whose projects have non-negative direct totals |
| `AllocationLaws.ProportionalRuleConservesExactlyWhen` | src/attribution/allocation.ts:188-214 | For every slice, credits included: the control total is kept if and only if the base is zero or the imbalances of the shared rows cancel; when they all point one way, if and only if every shared row neither overshoots nor runs out of candidates |
| `AllocationCounterexamples.NegativeBaseLosesAUnit` | src/attribution/allocation.ts:188-214 | Direct totals of -1 and -2 with one shared unit lose that unit although nothing overshoots |
| `AllocationCounterexamples.NegativeProjectBreaksTheTotal` | src/attribution/allocation.ts:188-214 | Direct totals of 4, -1 and -1 with one shared unit allocate it twice: the side condition is needed |
| `AllocationLaws.BaseIsTheAttributedCost` | src/attribution/allocation.ts:190-197 | The denominator of the proportional rule equals the cost evidenced by direct rows |
| `AllocationLaws.CentsAreConserved` | src/attribution/allocation.ts:119-134 | Up to two decimals, for every slice: the returned strings keep the control total, and printed attributed plus unallocated is the printed total, if and only if the rule conserves |
| `AllocationLaws.PrintedTotalsExactlyWhen` | src/attribution/allocation.ts:119-134 | At any scale and for any signs: the returned strings keep the control total if and only if misprints and gap cancel; without negative amounts, if and only if every returned amount is in the faithful region; and there, if and only if the rule conserves |
| `AllocationLaws.PrintedCoverageExactlyWhen` | src/attribution/allocation.ts:119-134 | At any scale and for any signs: printed attributed plus unallocated is the printed total if and only if the misprints and the gap balance; when the amounts are in the faithful region, if and only if the rule conserves |
| `AllocationLaws.ReportedAttributionExactlyWhen` | src/attribution/allocation.ts:121-124 | The attributed amount used is the true one plus the misprints of the entries; without negative amounts it is the true one if and only if every entry is in the faithful region |
| `AllocationLaws.CoverageOverstatesExactlyWhen` | src/attribution/allocation.ts:45 | Against the true attributed amount, for every slice: the figure is absent exactly for a zero total, and it does not overstate if and only if attributed and total cost do not have opposite signs and misprints do not lift the rounded share; with faithful entries it is the true share rounded down, overstated exactly for opposite signs |
| `AllocationCounterexamples.MisprintOverstates` | src/attribution/allocation.ts:121-128 | One keyed-tag row of 0.012, wholly attributed, is reported as 8350 per cent covered |
| `AllocationCounterexamples.OppositeSignsOverstate` | src/attribution/allocation.ts:126-128 | A direct charge of 1 in a slice totalling -2 is reported as 50 per cent covered |
| `CsvRecords.Tokenize` | scripts/acceptance/focus_control_totals.py:115-173 | The character loop returns exactly the records of the machine, or its first error |
| `CsvRecords.PrintedRecordsTokenize` | scripts/acceptance/focus_control_totals.py:115-173 | Tokenizing the quoted printing of any non-empty well-formed records returns the same texts and quote flags |
| `CsvRecords.AcceptedTextPrints` | scripts/acceptance/focus_control_totals.py:115-173 | Printing what an accepted input tokenizes to gives the input back, up to one final LF |
| `CsvRecords.AcceptedExactlyWhenPrintable` | scripts/acceptance/focus_control_totals.py:115-173 | An input is accepted if and only if it is the printing of well-formed records with or without the final LF |
| `CsvRecords.RefusalsAreTrue` | scripts/acceptance/focus_control_totals.py:115-173 | Every refusal of a text is true of it: a carriage return, a bare character after a closing or before a stray quote, or an odd number of quotes |
| `PlainDecimals.FormatParses` | scripts/acceptance/focus_control_totals.py:176-192 | `parse_decimal(format_decimal(u, s))` is (u, s) for every integer u and natural s |
| `PlainDecimals.CanonicalIsNormalForm` | scripts/acceptance/focus_control_totals.py:202-203 | `canonical_decimal` is idempotent, and two texts share their canonical form if and only if they parse to the same pair |
| `PlainDecimals.NoNegativeZero` | scripts/acceptance/focus_control_totals.py:186-203 | No text of value zero keeps a minus sign |
| `PlainDecimals.GrammarPlusFinalLf` | scripts/acceptance/focus_control_totals.py:70 | The pattern accepts the documented grammar and otherwise only such a text followed by one LF |
| `PlainDecimals.SumIsExact` | scripts/acceptance/focus_control_totals.py:195-199 | `sum_decimals` denotes the exact rational sum at the largest input scale |
| `PlainDecimals.SumDecimalsPermutes` | scripts/acceptance/focus_control_totals.py:195-199 | `sum_decimals` does not depend on the order of its inputs |
| `ControlTotalsCompute.CountNulls` | scripts/acceptance/focus_control_totals.py:355-357 | The inner loop adds one to the count of each null column of the record |
| `ControlTotalsCompute.ReadRecords` | scripts/acceptance/focus_control_totals.py:352-434 | The loop over data records stops at the first refusal in its order of checks, and otherwise fills groups, exclusions and null counts as specified |
| `ControlTotalsCompute.ListTotals` | scripts/acceptance/focus_control_totals.py:422-434 | One total for each period and currency seen, in sorted order |
| `ControlTotalsCompute.ListExclusions` | scripts/acceptance/focus_control_totals.py:443-452 | The nested counts of excluded rows are listed by period and provider in sorted order |
| `ControlTotalsCompute.Compute` | scripts/acceptance/focus_control_totals.py:330-455 | The whole program on a text: refusal or control totals, header, filter and column checks included |
| `ControlTotalsAcceptance.AcceptedExactlyWhenGood` | scripts/acceptance/focus_control_totals.py:330-404 | An input is accepted if and only if its header is usable, it has data, and every cell of every record holds what its column asks for; a refusal is true of the header or of the first record with a bad cell, which it numbers |
| `ControlTotalsAcceptance.PeriodMeans` | scripts/acceptance/focus_control_totals.py:107 | A period is the first of a month, with the months 01 to 12, at midnight UTC if a time is given, described by how the text splits |
| `ControlTotalsAcceptance.CurrencyMeans` | scripts/acceptance/focus_control_totals.py:108 | A currency is three letters A to Z, with one final LF at most |
| `ControlTotalsAcceptance.DecimalMeans` | scripts/acceptance/focus_control_totals.py:70 | A plain decimal is an optional minus, digits and optionally a point with digits, with one final LF at most |
| `ControlTotalsAcceptance.DecimalValue` | scripts/acceptance/focus_control_totals.py:177-184 | A plain decimal is read as the integer of its digits at the scale of its fraction, sign included |
| `ControlTotals.CanonicalParses` | scripts/acceptance/focus_control_totals.py:373-374 | The canonical amount stored for a row parses to the same pair as the cell |
| `ControlTotalsLaws.NumberIsOnlyReported` | scripts/acceptance/focus_control_totals.py:352-394 | Whether a record is accepted, and as what, does not depend on its number |
| `ControlTotalsLaws.RecordOrderIsIrrelevant` | scripts/acceptance/focus_control_totals.py:330-455 | Permuting the data records changes neither acceptance nor any count, sum, null count or digested line |
| `ControlTotalsLaws.InputOrderIsIrrelevant` | scripts/acceptance/focus_control_totals.py:330-455 | The same for two texts that tokenize to permuted records under one header |
| `ControlTotalsLaws.RowsAreConserved` | scripts/acceptance/focus_control_totals.py:352-452 | Included plus excluded row counts equal the number of data rows; nothing is excluded without a filter |
| `ControlTotalsFilters.TotalMeans` | scripts/acceptance/focus_control_totals.py:407-434 | Each total has the count, exact sums, null count and sorted lines of exactly the included rows with its key, and a missing key has none |
| `ControlTotalsCells.RowsReadTheirCells` | scripts/acceptance/focus_control_totals.py:359-389 | An accepted record contributes its own month, currency, id, provider and exact amounts |
| `ControlTotalsCells.TotalsAreCellSums` | scripts/acceptance/focus_control_totals.py:330-455 | Every total of an accepted run equals an independent record-by-record definition: counts, exact rational sums of the cost cells of the included records, and the lines to digest, built from the cells and sorted |
| `ControlTotalsFilters.FilterAcceptsExactlyWhen` | scripts/acceptance/focus_control_totals.py:337-405 | A filtered run is accepted if and only if the filter is usable, the unfiltered run is accepted and every record names a provider |
| `ControlTotalsFilters.ComplementaryFiltersAddUp` | scripts/acceptance/focus_control_totals.py:391-434 | Filters that put every record's provider in exactly one list have counts, null counts, exact sums and lines that add up to the unfiltered ones for every period and currency |
| `ControlTotalsCells.CountsAreCellCounts` | scripts/acceptance/focus_control_totals.py:355-405 | The null tokens count the null cells of every column, and the exclusions count, record by record, the cells that name a period and a provider outside the filter |
| `ControlTotalsCells.DocumentIsInOrder` | scripts/acceptance/focus_control_totals.py:422-455 | The document lists totals by period and currency, null tokens by column and exclusions by period and provider, each once, in order, with positive counts that add up |
| `Sequences.TextLeqMeans` | scripts/acceptance/focus_control_totals.py:425 | Texts are ordered at the first place where they differ, a beginning before its continuations |
| `AgentWorkspace.Workspace.ExecuteAgentCommand` | src/agent-workflows/engine.ts:32-184 | A rejected command leaves the workspace untouched; an accepted one changes it exactly as specified |
| `AgentCommands.CommandMeans` | src/agent-workflows/engine.ts:32-184 | Every command is accepted if and only if its conditions on the workspace hold; it then makes exactly the stated change to one job and no other, and a refusal names a reason that is true, under its HTTP status |
| `AgentInvariant.ProposalFits` | src/agent-workflows/engine.ts:108-145 | A proposal recommends what the evidence does, but a review first where expansion lacks an approval; it is ready exactly with all four approvals, keeps the ratio, and lists a task for each blocker in order with its role, then the missing approval and the decision |
| `AgentInvariant.ProposalIsDetermined` | src/agent-workflows/engine.ts:108-145 | Only one proposal fits a piece of evidence |
| `AgentCommands.ClaimableExactlyWhenClaimed` | scripts/simulation/worker.ts:29-36 | The worker looks for exactly the jobs whose claim is accepted |
| `AgentWorkspace.Workspace.Frank` | src/agent-workflows/engine.ts:187-199 | From a workspace in the invariant the composite command performs all its parts or changes nothing |
| `AgentWorkspace.Workspace.Drain` | scripts/simulation/worker.ts:25-60 | One drain claims and processes exactly the first claimable jobs, at most ten, leaves every other job as it was and counts them, if and only if each of these jobs has a workload; otherwise it fails with 404 at the first that has none, which stays running under its claim with an attempt spent, with the ones before it dealt with and the rest untouched |
| `AgentWorkspace.FindClaimable` | scripts/simulation/worker.ts:30-37 | The job taken is the first one that can be claimed |
| `AgentWorkspace.Workspace.ClaimAndProcess` | scripts/simulation/worker.ts:39-50 | Claim followed by process under the token of the claim: it succeeds if and only if the workload exists, and a refused process leaves the job running under the claim |
| `AgentInvariant.ExecuteKeepsInv` | src/agent-workflows/engine.ts:32-184 | Every command keeps: lease if and only if running, queued below three attempts, at most three attempts, at most 100 jobs, one job per workload and basis, results only in review or after, second-person reviews |
| `AgentInvariant.LeaseIsExclusive` | src/agent-workflows/engine.ts:64-98 | While a lease runs nobody else can claim, retry or report; after it expires nobody can report and the job can be claimed again |
| `AgentInvariant.FrankKeepsInv` | src/agent-workflows/engine.ts:187-199 | The composite command keeps the same invariant |
| `AgentInvariant.ClaimSucceeds` | src/agent-workflows/engine.ts:64-83 | A queued or expired job below the attempt limit is claimed with one more attempt and a lease of sixty seconds, and nothing else changes |
| `AgentInvariant.ProcessSucceeds` | src/agent-workflows/engine.ts:91-147 | The lease holder of a job with current evidence moves it into review with a proposal that fits the evidence, and nothing else changes |
| `AgentInvariant.FrankIsAllOrNothing` | src/agent-workflows/engine.ts:187-199 | Once queueing succeeds, claim and process cannot be rejected; the result is either unchanged or a finished review |
| `AgentCommands.FrankMeans` | src/agent-workflows/engine.ts:187-199 | The composite command changes nothing or finishes exactly one review of the current evidence, leaves every other job alone and records the claim and the processing of that job; its refusals are those of queueing and true |
| `AgentInvariant.FrankTwiceIsOnce` | src/agent-workflows/engine.ts:187-199 | A second composite command on the same evidence reports no change and makes none |
| `AgentRuns.RunsKeepInv` | src/agent-workflows/engine.ts:32-199 | The invariant holds in every workspace reachable by commands, composite commands and changes of evidence |
| `AgentRuns.JobsPersist` | src/agent-workflows/engine.ts:32-184 | No job is removed or re-addressed, and accepted and dismissed jobs never change again |
| `AgentRuns.RetiredTokensStayRetired` | src/agent-workflows/engine.ts:74-147 | A token once taken off its lease is never on a lease again |
| `AgentRuns.ClaimsAreConsumedOnce` | src/agent-workflows/engine.ts:91-147 | After one successful report under a token every later report under it is rejected |
| `AgentRuns.ReclaimFencesEarlierTokens` | src/agent-workflows/engine.ts:64-98 | After a job is claimed again no report under any token it held before succeeds, whichever earlier claim it came from and whatever happens in between |
| `AgentRuns.EffectiveEventsCost` | src/agent-workflows/engine.ts:64-181 | Every event lowers a natural-number measure by at least the number of engine commands that took effect in it, the two or three of a composite command included, and none raises it |
| `AgentRuns.TenantWorkIsBounded` | src/agent-workflows/policy.ts:2-8 | No run has more than 1000 effective engine commands per tenant, the parts of composite commands counted one by one |
| `AgentRuns.JobWorkIsBounded` | src/agent-workflows/policy.ts:2-8 | No job takes more than nine effective engine commands after the one that queued it, the parts of composite commands counted one by one |
| `AgentRuns.DismissalIsEnabled` | src/agent-workflows/engine.ts:148-181 | In every state of the invariant a second person with a rationale can dismiss any unfinished job |
| `AgentHistory.AcceptedHistory` | src/agent-workflows/engine.ts:91-181 | An accepted job was queued, processed and accepted while the evidence had one and the same basis, and carries the proposal computed then |
| `ConfigGuards.ObjectOf` | src/engagement/config.ts:236-243 | Reports a problem if and only if the value is no plain object or has a key that is not allowed |
| `ConfigRules.AtLeastOneCentMeans` | src/engagement/config.ts:279-282 | The digit test on a decimal string holds if and only if its value is at least 0.01 |
| `ConfigMetadata.TotalsAt` | src/engagement/config.ts:288-304 | Currency totals are accepted if and only if unavailable or one exact decimal per declared currency |
| `ConfigMetadata.MetadataAt` | src/engagement/config.ts:306-408 | Metadata is returned, complete, if and only if it is well formed; a null result always has a problem |
| `ConfigRetrieval.LeafAt` | src/engagement/config.ts:466-491 | A parameter value is returned if and only if it is a permitted scalar or list; otherwise a problem is recorded |
| `ConfigRetrieval.RetrievalAt` | src/engagement/config.ts:493-541 | A retrieval block reports nothing if and only if it is well formed, and then nothing of it is lost |
| `ConfigValidator.ParsePlatform` | src/platform/flags.ts:21-36 | Flags are returned if and only if the platform block is well formed, problems otherwise |
| `ConfigValidator.ValidateInto` | src/engagement/config.ts:545-722 | Problems are empty if and only if the input is well formed; then every declared item is in the configuration; the catch-all of line 713 is unreachable |
| `ConfigValidator.ValidateEngagementConfig` | src/engagement/config.ts:545-722 | The same for the entry point, which starts with no problems |
| `ConfigBuilt.AcceptedConfigurationsAreTheSoundOnes` | src/engagement/config.ts:545-722 | The configurations handed out are exactly the sound ones, soundness being said of the typed configuration alone: every accepted value stands for a sound one, and every sound one is accepted back, unchanged, from the JSON built of it |
| `ConfigMeaning.SpelledIsAcceptedExactlyWhenSound` | src/engagement/config.ts:545-722 | A value that spells a configuration, in whatever key order, is accepted if and only if the configuration is sound, and stands for it |
| `ConfigKept.AcceptedIsSpelled` | src/engagement/config.ts:714-722 | An accepted value spells its configuration: every part is under its own key, in order, no other key is there, and each platform flag is that of its own key |
| `ConfigBuilt.PeriodsRunForward` | src/engagement/config.ts:338-342 | In every source of an accepted configuration the period starts at an earlier moment of the calendar than it ends, offsets included, for a date parser that follows the calendar |
| `ConfigMoments.TimestampMeans` | src/engagement/config.ts:269-277 | A text is a timestamp if and only if it writes a moment of the calendar, leap days included, that the runtime reads |
| `ConfigMoments.ForwardMeans` | src/engagement/config.ts:342 | A period is accepted only when its start is the earlier moment, and is accepted when it is earlier by a millisecond and both offsets are known |
| `ConfigMoments.MillisecondsFollowTheCalendar` | src/engagement/config.ts:275 | A date parser that counts milliseconds follows the calendar, so the premise can be met |
| `ConfigTexts.LineMeans` | src/engagement/config.ts:246-254 | A text is accepted if and only if it is one line, not too long, with a character that is not white space |
| `ConfigTexts.MoneyMeans` | src/engagement/config.ts:279-282 | A budget is accepted if and only if it is a numeral of at most 40 characters worth at least 0.01 |
| `ConfigExample.SmallConfigIsSound` | src/engagement/config.ts:545-722 | The conditions can be met: a small engagement is sound and accepted |
| `ConfigLaws.WorkloadsResolve` | src/engagement/config.ts:597-697 | Every workload named by an account map, rule target, budget or scenario of an accepted configuration is declared |
| `ConfigLaws.SourcesResolve` | src/engagement/config.ts:391-397 | Source ids are unique, and every related source is another declared source or 'none' |
| `ConfigLaws.BudgetsAreUnique` | src/engagement/config.ts:597-657 | At most one budget per workload, and no repeated workload id |
| `ConfigLaws.FinancialsAreComplete` | src/engagement/config.ts:365-388 | Totals have exactly the declared currencies as keys, and a total's source is named if and only if there is a total |
| `ConfigLaws.TotalsKeyedByCurrencies` | src/engagement/config.ts:288-304 | Equal sizes and inclusion make the keys of a totals object exactly the declared currencies |
| `ConfigKept.NothingIsDropped` | src/engagement/config.ts:545-722 | Every source, workload, rule, budget, scenario and account entry of an accepted configuration is the input's, one for one and field by field |
| `ConfigKept.NamesAreKept` | src/engagement/config.ts:550-556 | The engagement's names and currency are the input's, the tenant id in lower case, and the optional parts are present exactly when given |
| `ConfigKept.SourceIsKept` | src/engagement/config.ts:567-586 | A source keeps its id, providers, layout, retrieval parameters and all its metadata, each in its place |
| `ConfigKept.ScenarioIsKept` | src/engagement/config.ts:664-697 | A scenario keeps its id, workload, two different models and token and share figures, each in its place |
| `ConfigKept.RuleIsKept` | src/engagement/config.ts:622-638 | A shared-cost rule keeps its id, rule, service name and targets, and an even split has targets |
| `ConfigLaws.CapabilitiesNeedThePlatform` | src/platform/flags.ts:1-6 | An accepted block has no capability flag set without `enabled` |
| `Nanos.RoundTripExactlyWhen` | src/evidence/money.ts:12-24 | `toNanos(fmtNanos(n))` is n if and only if the magnitude of n is below 10^21, and is refused otherwise |
| `Nanos.NanosAreExact` | src/evidence/money.ts:12-18 | An accepted string's nano-units are its rational value times 10^9, without rounding |
| `Nanos.PrintedAlikeExactlyWhenEqual` | src/evidence/money.ts:12-24 | Two accepted strings reprint alike if and only if they denote the same rational |
| `Nanos.PrintedIsCanonical` | src/evidence/money.ts:20-24 | The printed form has no superfluous zero and no minus on zero |
| `Nanos.AcceptedExactlyWhenSpelled` | src/evidence/money.ts:12-18 | An amount is accepted if and only if it is an optional minus, 1 to 12 digits, and optionally a point and 1 to 9 digits |
| `AiSpend.ListServices` | src/costsource/aiSpendRatio.ts:92-94 | The services of a currency, largest cost first and then by name |
| `AiSpend.ComputeAiSpendRatio` | src/costsource/aiSpendRatio.ts:64-107 | The loop over rows and Maps computes the specified totals, AI costs, services and exclusions |
| `AiSpendMeaning.ReportMeans` | src/costsource/aiSpendRatio.ts:64-107 | The report lists each currency with a usable row once, in order; total, AI cost, count and services of an entry are row-by-row sums over the input, and the ratio is given if and only if the total is positive and then times the total is the AI cost |
| `AiSpendMeaning.RatioIsAShare` | src/costsource/aiSpendRatio.ts:91 | Without refunds in a currency its ratio is between 0 and 1 |
| `AiSpendMeaning.RatiosCombine` | src/costsource/aiSpendRatio.ts:91 | Over two inputs with positive totals the ratio is the mean of the ratios weighted by the totals |
| `AiSpendLaws.RowsAreCounted` | src/costsource/aiSpendRatio.ts:64-107 | Row counts of all currencies plus excluded rows equal the input length |
| `AiSpendLaws.ServicesSumToAiCost` | src/costsource/aiSpendRatio.ts:78-94 | The services of a currency sum exactly to its AI cost |
| `AiSpendLaws.ServicesAreRanked` | src/costsource/aiSpendRatio.ts:92-94 | The services of a currency come in descending order of cost |
| `AiSpendLaws.SpendAdds` | src/costsource/aiSpendRatio.ts:64-107 | Totals, AI costs and counts add over concatenation of inputs |
| `AiSpendLaws.CurrenciesNeverMix` | src/costsource/aiSpendRatio.ts:7 | Rows of other currencies change nothing in a currency's entry |
| `AiSpendLaws.ReportPermutes` | src/costsource/aiSpendRatio.ts:64-107 | The report is the same for every order of the rows |
| `AiSpendSources.Choose` | src/costsource/aiSpendRatio.ts:142-155 | Requested ids become fetchable sources or errors, in order |
| `AiSpendSources.Load` | src/costsource/aiSpendRatio.ts:157-174 | Each fetched source is loaded or becomes an error, in order |
| `AiSpendSources.FetchAiSpendRatio` | src/costsource/aiSpendRatio.ts:135-189 | The whole aggregation over sources computes the specified report |
| `AiSpendFetching.ReportIsTrue` | src/costsource/aiSpendRatio.ts:135-189 | Every row reports on a source that was to be fetched and delivered, with the figures of its own rows, and is in the headline exactly when it is eligible and, among sources that repeat one bill, the first that can own it; every error is true of the source it names |
| `AiSpendSources.EachSourceEndsOnce` | src/costsource/aiSpendRatio.ts:140-174 | Each distinct requested source is in exactly one of `perSource` and `errors`, once |
| `AiSpendSources.LoadedOnce` | src/costsource/aiSpendRatio.ts:142-174 | No source is loaded twice: always when sources are named, and otherwise when available sources do not share an id |
| `AiSpendSources.EachGroupHasOneOwner` | src/costsource/aiSpendRatio.ts:119-127 | In the report of the program each repeated-bill group has at most one headline source, and has one if and only if an eligible member of it was fetched and returned rows |
| `AiSpendSources.OverallIsTheHeadline` | src/costsource/aiSpendRatio.ts:114-115 | In the report of the program the overall total cost, AI cost and row count of every currency, zero when it is not listed, are the sums over the per-source rows in the headline, and so are the excluded rows |
| `Accrual.ViewIsConsistent` | src/attribution/accrual.ts:196-240 | At every moment ranks are 1 to n, rows are in order with key ties ascending, live costs sum to the total and shares sum to one unless it is zero |
| `AccrualMeaning.ViewMeans` | src/attribution/accrual.ts:196-240 | A view is given if and only if every row has a rate; it shows every report row once with what the last rate of its own dimension and key accrued on the replayed clock, and its totals are sums over the rows shown |
| `Accrual.ShownFirstExactlyWhenAhead` | src/attribution/accrual.ts:224-229 | Of two rows the first shown is exactly the one ahead by cost, key and report order |
| `Accrual.OrderFlipsAtMostOnce` | src/attribution/accrual.ts:188-229 | The order of two rows that is the same at two moments is the same at every moment between them, ties included |
| `Accrual.SpendAccrualCurve` | src/attribution/accrual.ts:259-280 | The samples lie on the accrual line, advance, stay in the session, are evenly spaced over the trailing window and end at the present |
| `Attribution.AttributionRows` | src/attribution/aggregations.ts:30-91 | The grouping Map and sort produce one row for each key of the records, as specified |
| `Attribution.RowsCoverRecords` | src/attribution/aggregations.ts:30-91 | Row costs and record counts add up to the whole input, with one row for each key |
| `Attribution.RowsSayTheRecords` | src/attribution/aggregations.ts:30-91 | Cost, tokens, count and workloads of every row are what the records of its key add up to, and its share times the whole is its cost |
| `Attribution.SharesAddUp` | src/attribution/aggregations.ts:12-15 | Shares sum to one unless the total is zero |
| `Attribution.RowsAreRanked` | src/attribution/aggregations.ts:123-126 | Rows come in descending cost with ascending keys on ties |
| `FinioSessions.MockFinioClient.Handshake` | src/finio/MockFinioClient.ts:32-52 | A refused handshake stores nothing; an agreed one stores the negotiated version under its id for five minutes |
| `FinioSessions.MockFinioClient.Export` | src/finio/MockFinioClient.ts:54-65 | An unknown or expired session is refused and forgotten; any other exports its version |
| `FinioSessions.AgreedVersionIsRatified` | src/finio/exchange.ts:55-113 | The agreed version is the requested one and never a draft, and the accepted operations are the requested ones this side knows |
| `FinioSessions.AgreesExactlyWhen` | src/finio/exchange.ts:55-105 | A handshake is agreed if and only if it is well formed and asks for a ratified version, and a refusal tells which failed |
| `FinioSessions.MockIdsDoNotCollide` | src/finio/MockFinioClient.ts:42 | Session ids coincide if and only if version and nonce do |
| `FinioSessions.TokenVerdict` | src/finio/sessionStore.ts:41-80 | A minted token is accepted, for its version, exactly until it expires |
| `FinioSessions.OnlySignedTokensAreAccepted` | src/finio/sessionStore.ts:59-81 | A token is accepted for a version if and only if it carries the signature of that version and of a time not yet past |
| `FinioSessions.MockAgreesExactlyWhen` | src/finio/MockFinioClient.ts:29-65 | After every run with a forward clock, repeated nonces included, map and token agree on an issued session at every later moment if and only if the last session issued under its id was minted at the same time or has already expired |
| `FinioSessions.MockRefinesTokens` | src/finio/MockFinioClient.ts:29-65 | So a session whose version and nonce were not issued again has the same verdict and version from map and token at every later moment |
| `FinioSessions.MockAgreesAlwaysExactlyWhen` | src/finio/MockFinioClient.ts:54-65 | After every run, backward clocks included, they agree at every moment whatsoever if and only if the session is still in the map and its id was not minted again at another time |
| `FinioSessions.UnknownIsRefused` | src/finio/MockFinioClient.ts:54-62 | An id that was never issued is refused after every run at any moment |
| `FinioSessions.ReusedNonceDiverges` | src/finio/MockFinioClient.ts:41-43 | A run of two handshakes with one nonce at different times: the map serves the id after its first token has expired |
| `FinioSessions.BackwardClockDiverges` | src/finio/MockFinioClient.ts:58-62 | A run of a handshake and a late export, asked again at an earlier moment: the map has forgotten what the token still proves |

## Left out

- BigInt literals other than digit strings (hexadecimal, surrounding space): an amount is read only
  when its parts are digits; anything else is a refusal, as `BigInt` would throw or read it otherwise.
- `Number(remainderUnits)` above 2^53.
- String lengths and orders are by character; JavaScript counts UTF-16 units, which differs outside
  the basic plane.
- Line and byte numbers in CSV errors, UTF-8 decoding, and Python's limit on very long integer texts.
- The `--rows` contract of the control totals, the column classification, and the SHA-256 digests:
  the model keeps the digested lines instead.
- Counts in the control totals are numbers, not their decimal strings.
- The hash behind `reviewBasis`, `randomUUID` and the outcome evaluation: evidence maps a workload to
  its basis and evaluation, and identifiers drawn in a run are fresh.
- AgentWorkspace.Workspace.Drain: one clock reading and one session; the revision conflicts of
  concurrent sessions are not modelled, nor the SQLite store.
- Agent jobs are values in a field of the workspace object, so aliasing of job objects is not modelled.
- Unknown command types, personas, permissions and HTTP transport of the agent commands.
- The printed text of configuration problems: a problem is its key and a reason.
- ConfigGuards.ObjectOf: contracts of the validator count problems (none if and only if well
  formed) and do not fix which reason each one carries.
- The time-zone lookup, the runtime's date parser, the credential patterns and the AWS field rules of
  the configuration validator are parameters; file loading and the release policy are not modelled.
- The key `__proto__` and inherited properties of JSON objects.
- Floating point: costs enter the AI spend model as nano-units, and accrual, rates and shares are
  real numbers; `fromNanos`, `toFixed` and the numeric inputs of `toNanos` are not modelled.
- Locale order is any total order; the notes of the AI spend report are not modelled.
- Fetching of cost rows is a function of the source id: retries and timing are not modelled.
- Derivation of burn rates from seeds and the token columns of attribution reports beyond their sums.
- HMAC, constant-time comparison and session ids beyond 2^53: the signature is any function to texts
  without a hyphen.
- `nutanixDualView`, React pages, HTTP routes, connectors, report rendering and seed data.
