# PoisonTrace: a verified model

PoisonTrace watches Solana wallets for address poisoning: tiny transfers from an address that imitates one the wallet
really pays. For each focal wallet it fetches a baseline and a scan window of provider history, normalizes transactions
into owner-level transfers, decides eleven three-valued gates per observation, and stores what survives. A daemon picks
the wallets to scan and keeps within a daily credit budget. This project models that pipeline in Dafny and proves what
it is for.

## How it is organized

| files | part of the scanner |
|---|---|
| `Text`, `Sorting`, `Counting`, `Arithmetic`, `Wrappers` | string operations, sorting, counting, `Option` and `Result` |
| `Transfers`, `Counterparties`, `Reasons` | normalization, relation mapping, the counterparty aggregate, reason strings |
| `Fetch` | cursor pagination with retries |
| `Lookalike`, `Detection`, `Materialize` | the best match, the fail-closed decision, the indexed detector |
| `Decimal`, `DustRules` | decimal-string comparison, effective-dated dust thresholds |
| `CoreSync`, `Poisoning` | one wallet from history to candidates, and what candidates are in the provider's own terms |
| `Store`, `Execution`, `WalletRunner` | the tables, what a run does to them call by call, the runner itself |
| `Persistence`, `RunHistory`, `Interleaving`, `SyncRows`, `CandidateRows`, `Twins` | what runs leave behind, for any sequence, failures or interleaving |
| `WalletLock`, `WorkerPool`, `Orchestrator`, `Wallets` | the timed lock, the worker pool, run totals, wallet lists |
| `BlockScrape`, `WalletSummary`, `Source`, `TopWallets`, `Sourcing`, `Limiter`, `Daemon` | scraping, profiling, selection, seeds and neighbours, throttling, the daemon cycle |

Loops and state changes are methods with loops and classes with fields, each proved against a function of its inputs or
of the old state; what the scanner promises is then proved about that function. Where a method and its specification
share a small definition, a lemma whose name ends in `Meaning` says what it stands for in plain fields, positions and
numbers. The provider is an immutable
newest-first history per wallet with distinct signatures, served in pages of any size with any pattern of failures. Time
is in whole seconds (nanoseconds in the limiter, real seconds in the lock). Map iteration is an arbitrary choice. Every
store call may fail, and a failed call has no effect; a process that dies between two calls is the case in which every
later call, finalization included, fails.

## Main results

- **Candidates are exactly the poisonings of the provider's history** (`Poisoning.CandidatesArePoisonings`). A poisoning is a
  transfer of the scan window, native or token, that brings the wallet nothing or dust from an address which no transfer of
  the baseline window connects with the wallet, which resembles, in its first or last characters, another address the
  wallet paid above dust, last at the recorded time and not too long ago, and which did so often enough. This is stated over
  owners, amounts and times as the provider gives them, in both directions, and down to every field of the candidate.
- **From the provider to the database.** Every stored candidate is evidenced by the history within the look-back days before
  the scan (`CandidateRows.StoredCandidatesAreEvidenced`, through `WalletRunner.RunWallet`, `CoreSync.RunWalletCoreSync`,
  `Materialize.MaterializeCandidates` and `Fetch.FetchEnhancedWindow`), under the one classifier that gives the verdicts of
  the threshold rows in force. From what can be checked beforehand (the provider answers, the windows lie inside the caps,
  the rules in force are valid, the database refuses nothing) a run ends without error and stores exactly the poisonings
  (`CandidateRows.UndisturbedRunStoresTheTruth`). Truncation never creates a candidate.
- **Top-k selection.** Accepted wallets are exactly the first `targetCount`, in the four-key order, of all candidates that
  qualify on their whole window, when the provider answers and the windows lie inside the caps
  (`TopWallets.SelectionIsExact`). In every run each rejection is justified by the profile, by what the provider did, or by
  the target count, and whoever is turned away ranks behind all who are accepted (`Source.SelectWallets`).
- **Exactly-once counting** over every sequence of runs and failures, with exactly the lost links accounted for, and
  repetition that changes nothing (`RunHistory.ExactlyOnce`, `RunHistory.RepeatChangesNothing`). Counting stays exact when
  the store calls of any number of workers interleave, even on one wallet (`Interleaving.ExactlyOnceConcurrently`). A
  daemon started on empty tables keeps it through all its cycles (`Daemon.RunDaemon`).
- **The lock is safe exactly when its tail exceeds five seconds** (`WalletLock.SafeTailExact`); the configured six are
  enough, and a stale release is harmless without any timing assumption.
- **The credit bound** through scrape, sourcing, deep dive, retries and wallet runs (`Daemon.RunDaemonCycle`,
  `Daemon.RunDaemon`).

Some promises hold only under a condition, which the model states exactly:

- The limiter keeps "at most rps requests in any second" exactly when rps divides a second in nanoseconds
  (`Limiter.RateIsKeptExactly`): its interval is rounded down, so 3, 6, 7 and 9, all admissible RPC settings, allow one
  request more. `Limiter.ThreePerSecondAllowsFour` is the concrete case.
- A day's grants stay within the daily budget for every pattern of requests exactly when no calendar day returns after
  another (`Limiter.BudgetHoldsExactly`).
- A first run's stored counterparties equal the in-memory state exactly when no fetched transaction has two of the
  wallet's transfers with one fingerprint (`RunHistory.FirstRunMatchesMemory`, `Twins.FirstRunMatchesProvider`), which two
  rows share exactly in the case `Transfers.FingerprintCollision` describes. `Twins.TwinsAreCountedOnce` is a run with
  such a transaction: one interaction stored, two in memory.
- The rejection reason `helius_retry_exhausted` of wallet sourcing is unreachable: a fetch that runs out of retries is
  already partial and is rejected or queued as capped (`Source.Assess`, `Source.Retry`). The branch of the runner that
  would record a failed core sync as partial is unreachable too, as no progress is stored by then
  (`WalletRunner.RunBody`).

## Model

| member | source | states |
|---|---|---|
| Transfers.SanitizeRawAmount | internal/transactions/normalize.go:138-149 | an SPL amount is accepted exactly when its trimmed form is non-empty and all digits, and is "0" otherwise |
| Transfers.NormalizeEnhancedTx | internal/transactions/normalize.go:12-136 | fails exactly on a missing signature; otherwise there is one row per transfer, native ones first and consecutively numbered, each with the provider's owners, token accounts, amount, asset, decimals, slot, time and success, and with status, reason and eligibility told from these |
| Transfers.RowsAreRecorded | internal/transactions/normalize.go:19-131 | every transfer is recorded by the row of its position, as the provider gives it |
| Transfers.JudgeToken | internal/transactions/normalize.go:57-97 | the reassigned status, reason and eligibility equal the verdict that ranks the objections |
| Transfers.EligibleRow | internal/transactions/normalize.go:36-131 | eligible means resolved with distinct owners; resolved rows have both owners, a supported asset and, for SPL, a digit amount and no owner that is its token account |
| Transfers.FingerprintCollision | internal/transactions/normalize.go:99-113 | exactly which two rows of a transaction share a fingerprint |
| Counterparties.MappingIsExact | internal/counterparties/service.go:43-68 | a transfer maps to a counterparty exactly when the focal owner and another, trimmed and non-blank, are its two owners, as sender or receiver according to which of the two is the focal one |
| Counterparties.ApplyEvent | internal/counterparties/service.go:70-104 | on a fresh record the step is the SQL insert, on a live one the ON CONFLICT merge |
| Counterparties.MergeAggregates | internal/storage/postgres_repository.go:436-462 | the LEAST/GREATEST/sum merge extends counts, minima and maxima by one event |
| Counterparties.FoldAggregates | internal/storage/postgres_repository.go:393-486 | folding events gives, per counterparty, cardinalities, minima and maxima over its events |
| Counterparties.FoldIgnoresOrder | internal/counterparties/service.go:70-104 | the fold is the same for every order of the events |
| Fetch.RetryBackoff | internal/pipeline/fetch.go:148-172 | doubling to a cap plus a jitter below 97 ms, never under the base |
| Fetch.FetchPageWithRetry | internal/pipeline/fetch.go:124-146 | at most maxRetries + 1 attempts, every failure before the last retryable, and which outcome ends the loop |
| Fetch.WindowMembers | internal/pipeline/fetch.go:81-96 | the window holds exactly the history's transactions inside [start, end) |
| Fetch.WindowNewestFirst | internal/pipeline/fetch.go:81-96 | a window of a newest-first history is newest first and repeats no signature |
| Fetch.AdjacentWindows | internal/pipeline/core.go:64-82 | adjacent windows join into the window that spans them, without loss or repetition |
| Fetch.ScanPage | internal/pipeline/fetch.go:80-96 | one page extends the kept prefix of the window and detects the cap and the lower boundary |
| Fetch.ConsumePage | internal/pipeline/fetch.go:76-109 | after one page the walk is over with a faithful result or continues from the last signature seen |
| Fetch.FetchEnhancedWindow | internal/pipeline/fetch.go:28-111 | an error-free result is a prefix of the true window, and the whole of it unless marked partial, for any page size and retry pattern; each truncation and each error has its cause: a window deeper than the pages or wider than the cap, maxRetries + 1 refused replies in a row, or a refusal or expired context among the attempts made; attempts stay within maxPages times (maxRetries + 1) |
| Fetch.NothingExplains | internal/pipeline/fetch.go:63-146 | a provider that answers explains no error, and no truncation of a window inside both caps |
| Fetch.AnsweredFetchIsWhole | internal/pipeline/fetch.go:28-111 | with a provider that answers and a window inside both caps, the fetch yields the whole window |
| Fetch.AdjacentFetches | internal/pipeline/core.go:64-82 | two complete results over adjacent windows concatenate to the larger window |
| Reasons.SplitJoin | internal/pipeline/candidate_materialize.go:388-417 | splitting undoes joining when no part contains the separator |
| Reasons.ReasonRoundTrip | internal/pipeline/candidate_materialize.go:388-417 | the gate names written into a reason are the ones read back |
| Reasons.AddUnknownGates | internal/pipeline/candidate_materialize.go:388-405 | adds exactly the gate names the reason carries |
| Reasons.BuildUnknownGateReason | internal/pipeline/candidate_materialize.go:407-417 | the sorted list of the set, for every iteration order |
| Reasons.ArrangementUnique | internal/pipeline/candidate_materialize.go:411-416 | a set has one sorted listing, so reruns give the same string |
| Reasons.MergedMeaning | internal/pipeline/core.go:222-240 | a merged reason depends only on which non-blank reasons occur, and is blank exactly when all are |
| Reasons.MergedParts | internal/pipeline/core.go:222-240 | the parts of a merged reason are the reasons that were merged |
| Detection.EvaluateCandidate | internal/pipeline/detection.go:37-75 | emission exactly when all eleven gates pass; an unknown gate blocks, marks the window and is named |
| Detection.UnknownNames | internal/pipeline/detection.go:37-75 | each of the eleven names stands for one gate, and is among the unknown ones exactly when that gate is |
| Lookalike.CommonPrefixLength | internal/pipeline/candidate_materialize.go:339-352 | the loop computes the prefix length that PrefixIsLongest characterizes |
| Lookalike.PrefixIsLongest | internal/pipeline/candidate_materialize.go:339-352 | two strings agree on their first n characters exactly up to the common prefix length |
| Lookalike.SuffixIsLongest | internal/pipeline/candidate_materialize.go:354-367 | likewise for suffixes |
| Lookalike.ThresholdMeaning | internal/pipeline/candidate_materialize.go:333-337 | the thresholds pass exactly when the two addresses agree on the first prefixMin and the last suffixMin characters, or on the first or the last singleSideMin |
| Lookalike.ScoreMeaning | internal/pipeline/candidate_materialize.go:300-307 | the score is the number of characters the two addresses share at the start plus the number at the end, neither extendable |
| Lookalike.FindBestLookalike | internal/pipeline/candidate_materialize.go:299-316 | for every iteration order the match has the highest prefix plus suffix, lexically least on ties, or nothing resembles |
| Lookalike.BestUnique | internal/pipeline/candidate_materialize.go:307-312 | there is one best match |
| Lookalike.SelfMatch | internal/pipeline/candidate_materialize.go:295-331 | an address that is itself legitimate can only match itself |
| Materialize.BuildPreWindowInteractionSet | internal/pipeline/candidate_materialize.go:131-140 | holds exactly the non-blank baseline counterparties |
| Materialize.BuildLegitBaseline | internal/pipeline/candidate_materialize.go:142-165 | holds exactly the counterparties paid by eligible outbound transfers above dust, with the latest time |
| Materialize.LastLegitMeaning | internal/pipeline/candidate_materialize.go:159-162 | the recorded time is that of a payment and no payment is later |
| Materialize.BuildInboundStats | internal/pipeline/candidate_materialize.go:179-200 | known and potential injections per counterparty, as counts over the scan |
| Materialize.GatesDecide | internal/pipeline/candidate_materialize.go:72-97 | all gates pass exactly when the eleven conditions hold over the two sequences, and one is unknown exactly when something is undecided |
| Materialize.UnknownGateNames | internal/pipeline/candidate_materialize.go:72-97 | which gates an observation leaves unknown and names: unknown dust, a count that unknown dust may raise to the minimum, and what needs an incomplete baseline |
| Materialize.MaterializeCandidates | internal/pipeline/candidate_materialize.go:56-129 | the indexed detector emits, in scan order, exactly the observations satisfying the eleven conditions; emitted plus blocked is the scan length; incomplete exactly when some gate was unknown, and the reason names exactly those gates |
| Materialize.TruncationCreatesNothing | internal/pipeline/candidate_materialize.go:71-123 | a candidate found on a scan is found on every larger scan, with no smaller count |
| Materialize.AnswersChangeNothingDecided | internal/pipeline/detection.go:37-75 | answering unknown dust in the scan keeps what was emitted and keeps blocked what no unknown gate blocked |
| Materialize.MinInjectionGateExact | internal/pipeline/candidate_materialize.go:282-293 | Pass when every resolution of unknown dust reaches the minimum, Fail when none does, Unknown when they disagree |
| Materialize.LegitIsNeverSuspicious | internal/pipeline/candidate_materialize.go:266-280 | a paid address is blocked by the lookalike and inequality gates alone |
| Decimal.ToDecimal | internal/walletsource/source.go:762 | printing a threshold gives the canonical digits of its value |
| Decimal.ShorterIsLess | internal/walletsource/source.go:763-765 | without leading zeros a shorter digit string is the smaller number |
| Decimal.LexIsNumeric | internal/walletsource/source.go:766 | at equal length byte order is numeric order |
| Decimal.AmountRawLTE | internal/walletsource/source.go:748-767 | true exactly when the trimmed amount is all digits and its value is at most the threshold |
| Decimal.AmountRawIsZero | internal/walletsource/source.go:735-746 | true exactly when the trimmed amount is all digits with value zero |
| Decimal.ZeroMeaning | internal/pipeline/candidate_materialize.go:369-379 | an amount is zero exactly when its trimmed text is zeros, with or without a sign |
| DustRules.AdjacentCheckIsExact | internal/pipeline/wallet_runner.go:340-352 | for rules sorted by start, comparing neighbours decides whether any two overlap |
| DustRules.BuildDustClassifier | internal/pipeline/wallet_runner.go:306-353 | a table is accepted exactly when its rows are valid and no two windows of one asset overlap, the overlap error is given exactly for valid rows that do, and any other error names the fault of the first invalid row |
| DustRules.ValidRowMeaning | internal/pipeline/wallet_runner.go:313-330 | a row is refused exactly for a blank asset, an amount that is no number from 0 up, or an end not after its start |
| DustRules.ClassifyDust | internal/pipeline/wallet_runner.go:355-384 | the backward scan computes the verdict that DustVerdictIsExact relates to the table |
| DustRules.DustVerdictIsExact | internal/pipeline/wallet_runner.go:355-384 | the index built by loading gives the verdict of the rows it was built from |
| DustRules.VerdictMeaning | internal/pipeline/wallet_runner.go:355-384 | a positive amount is dust exactly when it is at most the threshold of a row of its asset in force at its time, not dust when above one, unknown when no row is in force |
| DustRules.ConflictMeaning | internal/pipeline/wallet_runner.go:340-352 | two rows conflict exactly when they are in force for one asset at one time |
| DustRules.VerdictUnique | internal/pipeline/wallet_runner.go:369-383 | disjoint rules give a transfer one verdict |
| DustRules.RowOrderIsIrrelevant | internal/pipeline/wallet_runner.go:306-353 | acceptance and verdicts do not depend on row order |
| DustRules.VerdictMonotone | internal/pipeline/wallet_runner.go:378-381 | a smaller amount of the same asset at the same time is dust when the larger is |
| DustRules.PreFilterIsExact | internal/storage/postgres_repository.go:576-605 | selecting the rows that meet the windows changes no verdict inside them |
| DustRules.SourceAgreesWithClassifier | internal/walletsource/source.go:615-632 | the string heuristic and the big-integer classifier agree under the same thresholds |
| CoreSync.NormalizeWindow | internal/pipeline/core.go:153-194 | fails exactly when a transaction lacks a signature; otherwise transfers, observations and counters are those of the transactions |
| CoreSync.ApplyObservations | internal/pipeline/core.go:196-213 | the in-memory state is the fold of the observations' events |
| CoreSync.UnseenMeansNeverMet | internal/pipeline/core.go:96-111 | a counterparty is absent from a complete baseline exactly when no transfer of the window, in the whole history, moves anything between it and the wallet |
| CoreSync.LastLegitIsLastPayment | internal/pipeline/candidate_materialize.go:142-165 | the legit time is the latest eligible payment above dust in the window, over the whole history |
| CoreSync.FoundCandidates | internal/pipeline/core.go:103-110 | a candidate found on a truncated scan is genuine and is found on the whole scan |
| CoreSync.RunTransfersDistinct | internal/transactions/normalize.go:39-113 | without collisions inside a transaction a run sees no transfer identity twice |
| CoreSync.RunWalletCoreSync | internal/pipeline/core.go:55-141 | every candidate is new to the provider's whole history and imitates a really paid address; a truncated baseline yields none; a complete run yields exactly the true candidates; transactions fetched are those of both windows, all of a window that is not truncated, and every other counter is a number of their transfers or observations; incomplete exactly when truncated or undecided, exactly when a reason is given; a failure or truncation has its cause at the provider; attempts stay within two windows |
| Poisoning.CandidatesArePoisonings | internal/pipeline/candidate_materialize.go:56-129 | an untruncated run's candidates are exactly the poisonings of the provider's history, each recording its transfer, the imitated address with its last payment and age, and the number of injections |
| Poisoning.KnownIsInjections | internal/pipeline/candidate_materialize.go:179-200 | the injection count of an address is the number of transfers of the scan window that bring the wallet nothing or dust from it |
| CoreSync.AnsweredCoreIsTrue | internal/pipeline/core.go:55-141 | with a provider that answers and windows inside the caps, the core sync succeeds with exactly the candidates the history calls for |
| Store.PostgresStore.UpsertNormalizedTransfers | internal/storage/postgres_repository.go:263-364 | all rows or none; inserted is the growth of the table |
| Store.PostgresStore.LinkWalletTransfer | internal/storage/postgres_repository.go:366-391 | fails without the backing transfer; answers whether the link is new |
| Store.PostgresStore.UpsertCounterpartyEvent | internal/storage/postgres_repository.go:393-486 | inserts or merges the event's row and answers which |
| Store.PostgresStore.InsertPoisoningCandidates | internal/storage/postgres_repository.go:488-574 | all or none; a candidate already stored for the sync run stays; the answer is the growth of the table |
| Store.PostgresStore.UpdateWalletSyncProgress | internal/storage/postgres_repository.go:131-189 | stores progress, the reason only when incomplete, unless the row is missing or the CHECK refuses |
| Store.PostgresStore.FinalizeWalletSyncRun | internal/storage/postgres_repository.go:191-229 | closes the row with status and reason unless it is missing or the CHECK refuses |
| Store.NonBlankIsReasoned | db/migrations/0003_phase1_runtime_hardening.sql:6-20 | a reason that is not blank satisfies the table's CHECK |
| WalletRunner.DedupeTransfers | internal/pipeline/wallet_runner.go:387-402 | returns the transfers that are the first of their identity |
| Execution.DedupedMeaning | internal/pipeline/wallet_runner.go:387-402 | the kept transfers stand at exactly the positions where an identity occurs for the first time, in the order they came in |
| WalletRunner.LinkObservations | internal/pipeline/wallet_runner.go:174-210 | the loop stops at the first failing call, with the tables and calls as they are then |
| WalletRunner.LoadedClassifier | internal/pipeline/wallet_runner.go:306-385 | the loaded classifier gives every transfer the verdict of the rows in force, those whose window meets one of the run's |
| WalletRunner.WindowsMeaning | internal/runs/service.go:33-42 | the baseline is the look-back days of 86400 seconds before the scan starts, half-open, the scan window is the configured one, and the other settings go through unchanged |
| WalletRunner.RowsInForceMeaning | internal/storage/postgres_repository.go:576-605 | the rows listed are those that are active at some time of the look-back or the scan |
| WalletRunner.WholeTableVerdicts | internal/storage/postgres_repository.go:576-605 | when the whole table is valid, these are its verdicts at every time of both windows |
| WalletRunner.ClassifierIsUnique | internal/pipeline/wallet_runner.go:355-384 | the rows in force admit one classifier |
| WalletRunner.RunBody | internal/pipeline/wallet_runner.go:110-297 | everything between the sync row's creation and its finalization; the rules are accepted exactly when they can be read and those in force are valid and disjoint, a core result is grounded in the provider's history, and a failed core is explained by the configuration or the provider |
| WalletRunner.RunWallet | internal/pipeline/wallet_runner.go:45-298 | tables, calls and report are those of Execute for the failures met; rules, core result, core failure and deadline are tied to the threshold table, the history and the provider as in RunBody; attempts stay within two windows |
| Persistence.ExecuteEffect | internal/pipeline/wallet_runner.go:163-210 | a run changes transfers, links and counterparties only in its loop, and only if it gets there |
| Persistence.LinkAllBalances | internal/pipeline/wallet_runner.go:174-210 | the loop posts each new link's event once, and loses at most one link, only when it fails |
| RunHistory.GroundedIsPlausible | internal/pipeline/core.go:182-190 | observations from a history name the other owner of their transfer, which is among the run's transfers |
| RunHistory.ExactlyOnce | internal/pipeline/wallet_runner.go:163-210 | after any runs and failures each counterparty's counters are the numbers of its links less the lost ones, never more than the links, its times are extremes of its events, and a failed run loses at most one link |
| RunHistory.RepeatChangesNothing | internal/pipeline/wallet_runner.go:163-210 | repeating a successful run, whatever fails then, changes no transfer, link or counterparty row |
| RunHistory.FirstRunMatchesMemory | internal/pipeline/core.go:96-99 | a wallet's first successful run stores the in-memory counterparty state exactly when no two observations make one link |
| RunHistory.RunObservesOnce | internal/pipeline/wallet_runner.go:174-180 | with no collision inside a transaction, no two observations of a run make one link |
| RunHistory.ReportCountsGrowth | internal/pipeline/wallet_runner.go:152-209 | reported counters are the growth of the tables, and each new link was created, updated or lost |
| RunHistory.GenuineRunsCountLinks | internal/pipeline/orchestrator.go:136-214 | the tables that any sequence of runs of real wallets leaves from an empty database count every link once, but for at most one per failed run |
| Twins.ObservesOnceExactly | internal/transactions/normalize.go:99-113 | no two observations of a run make one link, exactly when no fetched transaction has two of the wallet's transfers with one fingerprint |
| Twins.FirstRunMatchesProvider | internal/pipeline/wallet_runner.go:174-210 | a first successful run stores the in-memory counterparty state exactly when no fetched transaction has such a pair |
| Twins.TwinsAreCountedOnce | internal/pipeline/wallet_runner.go:174-210 | a run with one such transaction, without any failure, grounded in a history: one interaction in the table, two in memory |
| Interleaving.ExactlyOnceConcurrently | internal/storage/postgres_repository.go:366-486 | on every interleaving of any number of workers' store calls, without help from the lock, a counterparty's counters are the numbers of its links neither lost nor still being counted |
| Interleaving.LostAreDropped | internal/pipeline/wallet_runner.go:190-203 | links are lost only by a failed upsert or a worker's death, one each |
| Interleaving.LoopIsScheduled | internal/pipeline/wallet_runner.go:174-210 | the runner's loop, failures included, is one worker's part of such an interleaving |
| SyncRows.RunSettlesItsRow | internal/pipeline/wallet_runner.go:78-108 | whatever fails, every sync row is sound and the run's own row is finalized as reported or left running |
| SyncRows.HistoryRowsSound | internal/api/server.go:422-425 | after any runs, incomplete holds exactly with a stored non-blank reason, so the API guard never fires |
| SyncRows.FinalizedOnce | internal/pipeline/wallet_runner.go:78-108 | finalization is the last call, attempted once, refused only by the database; a run is fine exactly when every call succeeded on accepted rules and a finished core |
| SyncRows.StatusIsExact | internal/pipeline/wallet_runner.go:135-295 | succeeded is recorded exactly when every call succeeded and the window is whole; timed out exactly when the deadline stopped the core |
| SyncRows.ProgressIsRecorded | internal/pipeline/wallet_runner.go:246-288 | a run without error leaves one and the same figure for every counter in its core result or the tables, its report and its row, with completeness and truncation, and moves only its wallet's synchronization time, up to the end of the scan window |
| SyncRows.FailureIsNamed | internal/pipeline/wallet_runner.go:163-288 | the call that stops a run after its core sync is named in the reason beside what was known, and the run is partial; only a failed transfer upsert leaves it failed without progress |
| SyncRows.EarlyFailureIsNamed | internal/pipeline/wallet_runner.go:110-150 | a run that stops before its core result writes and counts nothing; it is timed out, incomplete and says so when the deadline stopped an accepted core, and failed without progress otherwise |
| SyncRows.QuietRunSucceeds | internal/pipeline/wallet_runner.go:45-298 | with every call accepted and a core result, the run ends without error: no check of the store's own gets in the way |
| CandidateRows.RunExtendsCandidates | internal/pipeline/wallet_runner.go:212-244 | a run adds only its own core's candidates under its own sync run, all of them if it ends without error, and touches no other row |
| CandidateRows.ReportCountsCandidates | internal/pipeline/wallet_runner.go:212-244 | the candidates reported as stored are the growth of the table, whatever fails |
| CandidateRows.StoredCandidatesAreEvidenced | internal/pipeline/wallet_runner.go:110-244 | for every stored candidate, in the look-back days before the scan nothing moved between the wallet and the suspicious address, which resembles another that the wallet paid, last when the candidate says; it records a transfer of the scan window that is a poisoning, with no larger count |
| CandidateRows.UndisturbedRunStoresTheTruth | internal/pipeline/wallet_runner.go:45-298 | with a provider that answers, windows inside the caps, valid rules and a database that refuses nothing, the run ends without error, stores exactly the poisonings of the history, and is recorded as succeeded exactly when no gate was undecided |
| WalletLock.LockTable.AcquireWalletLock | internal/storage/postgres_repository.go:607-641 | takes the row exactly when it is absent or expired |
| WalletLock.LockTable.ReleaseWalletLock | internal/storage/postgres_repository.go:652-664 | deletes the row exactly when the token is its own |
| WalletLock.TokensStayDistinct | internal/storage/postgres_repository.go:643-650 | on every schedule no two holders and no foreign row share a token |
| WalletLock.StaleReleaseIsHarmless | internal/storage/postgres_repository.go:652-664 | with no timing assumption, a release removes no row that another acquisition wrote |
| WalletLock.InvariantAlways | internal/pipeline/orchestrator.go:278-308 | on every timed schedule with crashes, each holder still owns its row and is within its deadlines |
| WalletLock.SafeTailExact | internal/pipeline/runtime_timing.go:3-9 | no two workers hold one wallet on any schedule, exactly when the tail exceeds the five seconds that finalization and release may take |
| WalletLock.ConfiguredLockIsSafe | internal/pipeline/runtime_timing.go:8 | the configured tail is safe |
| Wallets.ListedMeaning | internal/wallets/service.go:32-51 | every entry not excluded is listed once, and nothing else |
| Wallets.LoadAddressesExcluding | internal/wallets/service.go:14-56 | the listed addresses up to the cap |
| Wallets.NormalizeAddresses | internal/wallets/service.go:58-76 | the listed addresses up to the cap, and the number of distinct ones |
| Wallets.CapDropsNothing | internal/pipeline/orchestrator.go:106-109 | more distinct addresses than loaded ones means, exactly, that the cap dropped some |
| WorkerPool.AlwaysSound | internal/pipeline/orchestrator.go:136-159 | on every schedule each wallet is at one stage, at most the configured number run, and the channel holds one outcome of each worker past sending |
| WorkerPool.SendNeverBlocks | internal/pipeline/orchestrator.go:139-157 | the buffered channel has room for every send |
| WorkerPool.SchedulesAreBounded | internal/pipeline/orchestrator.go:141-162 | no schedule is longer than three steps a wallet and one cancellation |
| WorkerPool.NoDeadlock | internal/pipeline/orchestrator.go:141-162 | until all workers are gone one of them can move |
| WorkerPool.OneOutcomeEach | internal/pipeline/orchestrator.go:161-167 | at the end the channel holds exactly one outcome per wallet |
| Orchestrator.Aggregate | internal/pipeline/orchestrator.go:164-214 | processed, failed and skipped add up to the outcomes, with one note per failed or skipped wallet; every counter of the run is the sum of that counter over the wallets |
| Orchestrator.TotalsMeaning | internal/pipeline/orchestrator.go:168-214 | the tallies are the numbers of wallets without error, held elsewhere, with another error, partial, timed out and truncated |
| Orchestrator.TotalsIgnoreOrder | internal/pipeline/orchestrator.go:168-214 | totals and notes do not depend on the order outcomes arrived in |
| Orchestrator.ScheduleIndependence | internal/pipeline/orchestrator.go:136-214 | two completed runs with the same per-wallet results report the same totals, whatever their schedules and worker counts |
| Orchestrator.StatusMeaning | internal/pipeline/orchestrator.go:248-265 | what each run status says about the wallets and the run context, both directions |
| BlockScrape.AddBlock | internal/walletsource/block_scrape.go:241-269 | the statistics count the observations of the first inspectable transactions of a block |
| BlockScrape.YieldMembers | internal/walletsource/block_scrape.go:241-257 | an observation is used exactly when its transaction succeeded, is quiet, and fewer than the limit of such transactions come before it |
| BlockScrape.ScrapeRecentWallets | internal/walletsource/block_scrape.go:208-311 | reads one slot number unless one is configured and, from there downwards, exactly the blocks the limits allow above slot 0; the wallets are the rarest of exactly those worth keeping in these blocks, up to the cap |
| BlockScrape.FirstSlotMeaning | internal/walletsource/block_scrape.go:213-228 | without a slot asked for, the random displacement reaches exactly the slots of the look-back |
| BlockScrape.ListIsUnique | internal/walletsource/block_scrape.go:275-311 | the wallets worth keeping have one listing |
| WalletSummary.BusiestIsMaximal | internal/walletsource/source.go:544-549 | the recorded maximum is reached by some second and exceeded by none |
| WalletSummary.WidestIsMaximal | internal/walletsource/source.go:551-600 | likewise for the number of the wallet's transfers in a transaction |
| WalletSummary.FiguresMeaning | internal/walletsource/source.go:556-599 | which transfers, by the provider's owners and times, count as outbound, inbound, legitimate payments and dust |
| WalletSummary.ScoreMeaning | internal/walletsource/source.go:634-642 | one lookalike is worth 100, a repeated counterparty 50, a dust transfer 10, a paid counterparty 3, a seed 1, and nothing else counts |
| WalletSummary.SumDust | internal/walletsource/source.go:601-610 | for every iteration order, totals, repeats and lookalikes over the dust map |
| WalletSummary.SummarizeWallet | internal/walletsource/source.go:539-613 | every figure of the profile is a count over the sampled transfers or the size of a set of owners |
| Source.DefaultsMeaning | internal/walletsource/source.go:360-414 | options that are set stay, each other gets its default |
| Source.RejectReasonMeaning | internal/walletsource/source.go:665-694 | a profile qualifies exactly when it meets all conditions; otherwise the reason is the first it misses |
| Source.Assess | internal/walletsource/source.go:216-269 | a wallet qualifies only on its whole window; a rejection judges the whole profile, or names a truncation or an error that the provider's replies explain; retry exhaustion never rejects; nobody is turned away here |
| Source.Retry | internal/walletsource/source.go:286-320 | a queued wallet qualifies on its whole window; a rejection judges that profile, or names the deeper sample's truncation or error, explained by the provider's replies |
| Source.Dive | internal/walletsource/source.go:277-320 | beyond the first N a queued wallet is skipped without a request, and only then; once the target is met it is turned away without a request, and only then |
| Source.Choose | internal/walletsource/source.go:323-341 | the accepted wallets are the first targetCount of the eligible under the four-key order |
| Source.RanksMeaning | internal/walletsource/source.go:323-335 | an accepted wallet has at least the score, then dust, then paid counterparties, then comes first by address, of one that ranks behind it |
| Source.SortedDiscoveries | internal/walletsource/source.go:464-476 | each discovered wallet once, most seeds first, then by address |
| Source.ArrangementIsUnique | internal/walletsource/source.go:469-474 | a set of discovered wallets has one such order |
| Source.SelectWallets | internal/walletsource/source.go:204-341 | the candidates are the first maxCandidates discovered; each ends in exactly one of accepted and rejected; accepted wallets qualify on their whole window, are at most targetCount, and exactly targetCount once any wallet is turned away; by score, dust, paid counterparties and address, in this order, no accepted wallet is worse than a later one or than one turned away; every rejection is justified; the deep-dive queue is served in its order, skipping exactly its tail; requests stay within the bound |
| TopWallets.SelectionIsExact | internal/walletsource/source.go:204-341 | with a provider that answers and windows inside the caps, the accepted wallets are exactly the first targetCount, in the four-key order, of all candidates that qualify |
| Sourcing.SeedsMeaning | internal/walletsource/source.go:508-537 | a seed is a trimmed non-blank entry, and every such entry is listed once |
| Sourcing.LoadSeedWallets | internal/walletsource/source.go:478-537 | explicit wallets, then the lines of the seed file without comments, each wallet once in order of first appearance |
| Sourcing.AddNeighbours | internal/walletsource/source.go:186-198 | records the seed for exactly the owners in its transactions that are not blank and no seed so far, and changes nothing else |
| Sourcing.Discover | internal/walletsource/source.go:167-202 | each wallet is discovered through exactly the seeds that lead to it: itself if seeds are scored, or one in whose fetched transactions it owns a side; it fails only on a fetch error the provider explains |
| Sourcing.SourceWallets | internal/walletsource/source.go:141-341 | fails exactly on an empty window, on no seeds, or on a failed seed fetch; otherwise the selection is one among the wallets discovered from the capped seeds; requests stay within the bound |
| Sourcing.SourceDiscovered | internal/walletsource/source.go:352-358 | the same for given seeds without neighbours: it fails exactly on an empty window or no seeds, and spends nothing before selection |
| Sourcing.SeedsAreCandidates | internal/walletsource/source.go:169-172 | then exactly the capped seeds are candidates, each with itself as its one seed |
| Limiter.RequestLimiter.Wait | cmd/scanner/daemon.go:417-430 | the slot is the later of now and the earliest free time |
| Limiter.SlotsAreSpaced | cmd/scanner/daemon.go:417-430 | slots are an interval apart or more, for any clock readings, and never before their call |
| Limiter.SlotsAreEarliest | cmd/scanner/daemon.go:417-430 | each slot is the later of its call and one interval after the slot before it, so nobody waits longer than the spacing asks |
| Limiter.SpanHoldsFewSlots | cmd/scanner/daemon.go:404-430 | a half-open span of n intervals holds at most n slots |
| Limiter.IntervalMeaning | cmd/scanner/daemon.go:410-415 | the interval is the largest that fits rps times into a thousand million nanoseconds |
| Limiter.RateIsKeptExactly | cmd/scanner/daemon.go:410-415 | no second holds more than rps slots, exactly when rps divides a second in nanoseconds |
| Limiter.ThreePerSecondAllowsFour | cmd/scanner/daemon.go:410-415 | at three requests per second a second can hold four |
| Limiter.DailyCreditBudget.Reserve | cmd/scanner/daemon.go:443-459 | grants a request exactly when it fits into what is left of its day |
| Limiter.BudgetHolds | cmd/scanner/daemon.go:443-459 | while days do not return, a day is granted at most the limit |
| Limiter.GrantsExactly | cmd/scanner/daemon.go:443-459 | while days do not return, a request is granted exactly when it fits into what was not yet granted on its day |
| Limiter.BudgetHoldsExactly | cmd/scanner/daemon.go:443-459 | over given clock days the limit holds for all requests exactly when no day returns |
| Limiter.SteadyClockKeepsBudget | cmd/scanner/daemon.go:443-459 | with a clock that never runs backwards every day stays within the limit |
| Daemon.EstimateIs | cmd/scanner/daemon.go:356-363 | the estimate is one credit per RPC call plus a hundred per Enhanced request: pages of candidates, deep dives and two windows per wallet, each with every retry |
| Daemon.CycleWindows | cmd/scanner/daemon.go:238-345 | sampling and scanning look at the last scan days before the cycle, sampling also at the look-back days before these |
| Daemon.RunWallets | internal/pipeline/orchestrator.go:136-159 | the tables are those of one run after another, one for each wallet not held elsewhere, each grounded in its wallet's history |
| Daemon.SpendCycle | cmd/scanner/daemon.go:261-353 | RPC calls and Enhanced attempts of a cycle, and how many wallets it scans, are bounded by the options; the tables are those of its wallet runs |
| Daemon.RunDaemonCycle | cmd/scanner/daemon.go:238-354 | nothing is spent unless the estimate is granted, and never more than the estimate |
| Daemon.RunDaemon | cmd/scanner/daemon.go:106-126 | while days do not return, the cycles of one day together spend at most the daily budget; the tables are those of all cycles' wallet runs one after another, so from an empty database every link is counted once but for at most one per failed run |

## Left out

- HTTP, JSON, SQL text, files, flags, logging, the API handlers and the web application; nil clients and stores; error texts.
- SHA-256: a fingerprint is the seed that is hashed, so the hash is taken to be injective; lock tokens are taken never to repeat.
- Characters: a string is a sequence of characters, so byte-wise prefix and suffix lengths coincide with Go's for ASCII addresses; digits outside ASCII, which `unicode.IsDigit` accepts, count as malformed.
- Integer widths, `time.Duration` saturation at about 292 years and month arithmetic: numbers are unbounded, days are 86400 seconds, and recency days are integer division where the code divides floats.
- The truncation rate of a run (a float quotient) and `WalletCapHitCount`, whose substrings match none of the truncation codes the fetch produces.
- WalletLock.InvariantAlways: one clock serves the database and all workers, a store call takes effect at one instant, and "honours its context" means time does not pass a live worker's deadline.
- WalletRunner.RunWallet: a wallet run is modelled without other writers in between; `Interleaving` treats concurrent store calls for transfers, links and counterparties, and the claims about repetition, first runs, sync rows and candidates are about runs one after another.
- Daemon.RunDaemonCycle: the wallet runs of a cycle are taken one after another, which leaves the number of requests unchanged; the budget lives in memory, so a restart of the process forgets what it spent.
- Limiter.RequestLimiter.Wait: the slot is what the limiter grants; when the sleeping caller really sends, and that a cancelled caller keeps its slot, are not modelled further.
- Sourcing.SourceWallets: the seed file is its list of lines; the default asset lists, the two report files and which of two configuration errors is reported first are left out.
- BlockScrape.ScrapeRecentWallets: parsing of block instructions into quiet transfers and owner observations is an input; the random displacement is a parameter.
- RunHistory.ExactlyOnce: the tables other writers could touch are not modelled; the scanner is the only writer.
- Store.PostgresStore.InsertPoisoningCandidates: its table's CHECK concerns candidates of incomplete windows, which the detector never produces.
- Ingestion-run rows, export sorting, corpus-validation ratios, operational health and failure classification: they add no hard property.
- Transaction success is recorded but is no gate in the code, and a wallet may emit for one counterparty while another is undecided; nothing is claimed about either.
