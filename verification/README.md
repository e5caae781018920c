# Kairyu, verified

A Dafny model of the parts of Kairyu whose correctness no finite test can settle, with proofs about them:
the concurrent writers and leases, the incremental event-stream parser, the statistics behind the
evaluation reports, the evidence state machines, and the money and usage arithmetic.

`dafny verify dfyconfig.toml` checks everything.  One module per concern:

| module | models |
|---|---|
| `ContainerLease` | the ownership handoff of a freshly created container between a helper thread and a caller |
| `AuditWriter` | the bounded JSONL writer: appenders, barriers, writer thread, batches and sticky errors |
| `AsyncLanes` | semaphore permits and the serial gate that stay tied to the real worker thread |
| `Sse` | the incremental server-sent-event parser |
| `BinaryMargins` | the Gale-Ryser test on stored row and column sums |
| `SplitMix64`, `Bootstrap`, `ClusterBootstrap` | the random generator with rejection sampling, and the two paired bootstraps on top of it |
| `Newcombe` | Wilson and Newcombe intervals |
| `PassAtK`, `Sampling`, `SamplingSummary` | pass@k, seed sweeps, and their summary with its validator |
| `Structured` | the paired structured-output summary and its validator |
| `HistoryEntry`, `HistoryIndex` | scoreboard records and the hash-chained append-only index |
| `SuiteTrace`, `Runner`, `SuiteOutcomes` | the events of a suite run and what a crash leaves behind; the suite runner's drift, quarantine and resume machine; what its runs leave on disk |
| `Decimals`, `Invoice`, `Ledger`, `Reconciliation`, `LedgerFiles` | 28-digit decimals, invoice arithmetic, usage aggregation and export, independent reconciliation, and what the two readers of a ledger file make of its bytes |
| `Options`, `Sorting`, `Sets`, `Runs`, `Powers`, `Reals`, `Averages`, `Rounding`, `Utf8` | shared definitions and elementary facts |

Conventions.  Concurrent code is a state datatype with one step per atomic action of the source; every
result quantifies over all runs, that is over all schedules, cancellations, timeouts and interrupts.
Objects that update their fields are classes, and loops are loops, each proved against a specification.
Floating-point arithmetic is exact: reals, with `math.isclose` read as equality; the decimals of the invoices
are rounded as in the source.  A square root is a
non-negative number with the given square.  Where the source raises, the model returns `None` or a named
refusal.  Clocks, observations of the outside, adapter answers, hashes and JSON encodings are parameters.

## What turned out not to hold

- The audit writer computes the encoded size of a record outside any handler (kairyu/audit_io.py:262-263,
  used at 282 and 297).  A record with a lone surrogate ends the writer thread without setting the sticky
  error.  `AuditWriter.CrashIffUnencodable` says this is the only way to lose the thread.  A flush waiting at
  that moment waits for ever (`FlushIsOrphaned` is such a run, `OrphanWaitsForever` covers all its
  continuations), and `SilentLoss` gives a run in which a record is lost and the next flush still reports
  success.  Records are dropped exactly when an append restarts the crashed thread (`LogIsWholeIff`).  A flush
  without error has published everything put before it since the last close exactly when every record among
  that can be encoded: `FlushPublishesIff`.
- At most one gated function runs at a time only as long as nobody cancels the inner task directly
  while its thread works, or there is a single worker.  `AsyncLanes.GateIsExclusive` proves it under that
  condition and `CancelledTaskOpensGate` gives the run that breaks it for every larger worker count.
- The index chain does not protect against truncation: `HistoryIndex.PrefixIsIndex`.  Everything else
  that keeps a record of the index in last place is refused: `TamperingIsRefused`.
- The runner writes the evaluator marker for a drift found by its last scan only after it has attested
  the source again and discarded scores (evals/runner.py:971-998), so a crash in between leaves that
  drift without a marker: `Runner.UnmarkedWindow` is a whole run with such a point.
  `Runner.CrashLeavesDriftUnmarkedIff` gives the exact places in every run: inside the scan or look that first
  found the drift, and, for a history candidate behind its first scoreboard, between that scan and the marker.
- A structured summary that its producer returns is accepted exactly when the number of its leaves and their
  tokens are JSON-safe integers: `Structured.SummaryAcceptedIff`.  `Structured.UnsafeTotalIsRefused` gives valid
  evidence whose summary is refused.
- Not everything the invoice export accepts can be reconciled: the export decodes the bytes of a line
  (kairyu/pricing.py:216), the reconciliation a text (kairyu/usage_reconciliation.py:35-43).
  `LedgerFiles.InvoiceAgrees` says exactly which ledgers both accept, and that they then agree;
  `LedgerFiles.MarkedLedger` is a ledger with a byte-order mark, which only the export accepts.
- A tenant-filtered invoice export can succeed where the full one raises, because writing a row can fail: the
  tenant has no UTF-8 encoding (kairyu/pricing.py:359), the source of a selected record has none (235), or an
  amount has more than 28 digits (261 and 345).  `Ledger.TenantExportIff` says exactly when a filtered export
  succeeds, `FullExportIff` that the full one does exactly when all filtered ones do, and `UnnamedTenantBlocks`
  and `HugeTenantBlocks` give ledgers of two tenants on which only the filtered export succeeds.
- More usage can make an invoice one quantum cheaper, because a product is rounded to 28 digits before it is
  quantized: `Invoice.TotalCanDrop`.  It never drops by more (`TotalHardlyDrops`), and not at all while the
  products have at most 28 digits (`TotalMonotone`).

## Model

| member | source | states |
|---|---|---|
| `ContainerLease.StepKeepsInv` | evals/execution.py:691-763 | every step of helper or caller keeps the ownership invariant: what is owed for removal plus what was removed is what creation produced |
| `ContainerLease.NoContainerLeak` | evals/execution.py:676-785 | in every finished run a validly created container was removed exactly once, or exactly twice when the interrupt tore the claim apart; text printed in place of an id is removed once as if it were one; the container name is removed once after such text or an exit with an error, and never otherwise; the lease is empty |
| `ContainerLease.BodyOwnsContainer` | evals/execution.py:766-785 | while the caller's body runs, its lease names the created container and nobody has removed it or is about to |
| `ContainerLease.HandedOverIff` | evals/execution.py:735-763 | in every settled run the body runs exactly when creation gave a valid container, the helper published it before the caller checked, and nothing interrupted the caller |
| `ContainerLease.HandoverRun` | evals/execution.py:735-750 | for every container id, a settled run in which the body runs with that container |
| `ContainerLease.NotStuck` | evals/execution.py:691-763 | as long as a party is not done, some step is possible: no deadlock between the two events and the lock |
| `ContainerLease.RunsAreShort` | evals/execution.py:691-785 | every run has at most a fixed number of steps, so both parties finish |
| `AuditWriter.StepKeepsInv` | kairyu/audit_io.py:85-299 | every step of appenders, flushers, closer and writer keeps the queue, batch, file, log and lock invariants |
| `AuditWriter.BarrierPublishes` | kairyu/audit_io.py:140-182 | a barrier that reports no error finds in the file what was there before, its torn tail terminated, and then every record admitted before it in this lifecycle, once each and in admission order |
| `AuditWriter.PublishedRows` | kairyu/audit_io.py:191-226 | read back line by line, the published file is the old rows followed by the records |
| `AuditWriter.FileOnlyGrows` | kairyu/audit_io.py:212-226 | no step removes or rewrites what is in the file |
| `AuditWriter.BoundsHold` | kairyu/audit_io.py:265-299 | in every reachable state the queue is within `max_pending`, a batch within `batch_size`, and the bytes before its last record below `max_batch_bytes` |
| `AuditWriter.PendingIsNotStuck` | kairyu/audit_io.py:140-159 | while a barrier is pending and the thread lives, a step that serves it is enabled: the lock held by a blocked put never blocks the writer |
| `AuditWriter.ProgressStep` | kairyu/audit_io.py:265-299 | no step moves a pending barrier back and every serving step lowers its rank |
| `AuditWriter.BarrierIsServed` | kairyu/audit_io.py:140-182 | along any run without a crash the serving steps taken plus the remaining rank never exceed the initial rank, so a waiting barrier is finished |
| `AuditWriter.ErrorIffFailure` | kairyu/audit_io.py:184-226 | the sticky error is set exactly by a failing write, flush, close or renderer |
| `AuditWriter.ErrorSticks` | kairyu/audit_io.py:106-182 | once set, the error stays until a close is completed; meanwhile no record is admitted, no flush begins, and every barrier that finishes reports it |
| `AuditWriter.NoFailureNoError` | kairyu/audit_io.py:140-226 | in every run without such a failure there is no error, and every finished barrier reports success |
| `AuditWriter.CrashIffUnencodable` | kairyu/audit_io.py:262-299 | a step kills the writer thread exactly when it takes a record that renders but has no UTF-8 encoding |
| `AuditWriter.EncodableRunsDoNotCrash` | kairyu/audit_io.py:262-299 | if every admitted record can be encoded the thread never dies |
| `AuditWriter.LogIsWholeIff` | kairyu/audit_io.py:85-121 | what the current thread was given is everything put since the last close exactly when no append since then restarted a crashed thread |
| `AuditWriter.UninterruptedFlushPublishes` | kairyu/audit_io.py:140-182 | over any run without such a restart, a flush or close that reports no error leaves in the file what was there at the last close and then every record admitted since, once each and in order |
| `AuditWriter.EncodableFlushPublishes` | kairyu/audit_io.py:140-182 | the same over every run whose records can be encoded or fail to render |
| `AuditWriter.FlushPublishesIff` | kairyu/audit_io.py:85-182 | in every run, a flush or close that reports no error has published everything put before it since the last close exactly when every record among that, if it renders, can be encoded; its place among what was put is unique |
| `AuditWriter.OrphanWaitsForever` | kairyu/audit_io.py:161-182 | a barrier caught by the crash is never finished, whatever happens afterwards |
| `AuditWriter.FlushIsOrphaned` | kairyu/audit_io.py:161-182 | for all limits of the writer, a run from the start that ends with a flush caught by the crash |
| `AuditWriter.SilentLoss` | kairyu/audit_io.py:85-103 | a concrete run: an accepted record is lost with the thread, the next append restarts it, and a flush then reports no error |
| `AsyncLanes.StepKeepsPermits` | kairyu/async_thread.py:90-142 | every step keeps free permits plus holders equal to the worker count |
| `AsyncLanes.PermitsAreConserved` | kairyu/async_thread.py:112-142 | in every run with cancellation at any await, permits are conserved, working threads hold permits, each permit is released at most once and not before its thread settles |
| `AsyncLanes.EverythingIsReturned` | kairyu/async_thread.py:90-109 | when all calls have finished, every permit is free and the gate is open |
| `AsyncLanes.GateIsExclusive` | kairyu/async_thread.py:191-225 | at most one gated function runs, unless an inner task was cancelled while its thread worked and there are several workers |
| `AsyncLanes.CancelledTaskOpensGate` | kairyu/async_thread.py:101-109 | for every worker count from two on, a run in which two gated functions run at once |
| `AsyncLanes.NotStuck` | kairyu/async_thread.py:112-142 | as long as a call is unfinished, some step that is neither a start nor a cancellation is enabled |
| `AsyncLanes.RunsAreShort` | kairyu/async_thread.py:90-225 | a run has at most ten steps for every call started, so it ends when calls stop arriving |
| `AsyncLanes.EndedRunIsThrough` | kairyu/async_thread.py:90-225 | a run that cannot advance has finished every call, freed every permit and opened the gate |
| `Sse.EventReader.PopLine` | kairyu/sse.py:28-57 | the line cut from the buffer and the new buffer are those of the whole-buffer line rule, including a CR deferred at the end; the resume cursor is the first line break, or the end, when no line could be cut |
| `Sse.EventReader.TakeLine` | kairyu/sse.py:85-99 | field parsing, the data list and the dispatched payload of one line |
| `Sse.EventReader.Consume` | kairyu/sse.py:75-99 | pops every complete line and emits the payloads of exactly those lines |
| `Sse.IterSseData` | kairyu/sse.py:60-106 | for every way of cutting a stream into chunks the payloads are those of the event-stream rules of sections 9.2.5 and 9.2.6 of the WHATWG HTML Living Standard applied to the whole stream |
| `Sse.WrittenIsRead` | kairyu/sse.py:60-106 | a stream written as data lines, bare data lines, comments, other fields and blank lines with any line ends, with or without a byte-order mark and with an unfinished last line, cut anywhere, gives back exactly the events written |
| `Sse.EventsComeBack` | kairyu/sse.py:60-106 | every list of events of one-line values has such a stream, and is read back from it joined by LF |
| `Sse.FieldParts` | kairyu/sse.py:95-97 | a field is split at its first colon, and one space behind it is dropped |
| `Sse.NextLineStable` | kairyu/sse.py:36-57 | more input never changes a line that was already cut |
| `Sse.PopsExtended` | kairyu/sse.py:36-57 | lines popped from a prefix are popped from the whole, leaving the rest extended |
| `Sse.LinesAreTerminatedLines` | kairyu/sse.py:28-57 | the popped lines are those of a byte-by-byte automaton for CR, LF and CR LF |
| `Sse.PayloadsAreReference` | kairyu/sse.py:70-106 | the payloads emitted for the popped lines are those of the reference dispatch, with BOM and unterminated tail |
| `BinaryMargins.SortDescending` | evals/aggregate.py:562 | a descending rearrangement |
| `BinaryMargins.MatrixMeetsCondition` | evals/aggregate.py:555-566 | the margins of any 0/1 matrix have equal sums and every prefix of rows is within the capped column sum |
| `BinaryMargins.Exchange` | evals/aggregate.py:555-566 | one unit can be moved from a richer row to a poorer one without changing a column sum |
| `BinaryMargins.Settle` | evals/aggregate.py:555-566 | exchanges turn any dominating row sums into the wanted ones |
| `BinaryMargins.RowOrderIsImmaterial` | evals/aggregate.py:562 | permuting the rows does not change whether a matrix exists |
| `BinaryMargins.FeasibleIffRealizable` | evals/aggregate.py:555-566 | the test is true exactly when some 0/1 matrix has those row and column sums |
| `SplitMix64.UnmixMix` | evals/config_compare.py:37-39 | the output mix has a left inverse on 64-bit values |
| `SplitMix64.MixUnmix` | evals/config_compare.py:37-39 | and the same function is its right inverse |
| `SplitMix64.MixIsInjective` | evals/config_compare.py:37-39 | different states give different outputs |
| `SplitMix64.FullPeriod` | evals/config_compare.py:35 | within one period the state determines the draw: an inverse computes its number |
| `SplitMix64.PeriodIsExact` | evals/config_compare.py:35 | two draws share a state exactly when a multiple of 2^64 draws lies between them |
| `SplitMix64.EveryStateIsReached` | evals/config_compare.py:35 | every 64-bit state occurs within one period, at a computed draw |
| `SplitMix64.OutputsAreBijective` | evals/config_compare.py:34-39 | over one period every 64-bit output occurs exactly once |
| `SplitMix64.RejectedDrawsAreFew` | evals/config_compare.py:45-49 | a run of rejected draws is at most 2^64 mod bound long |
| `SplitMix64.AcceptanceIsNear` | evals/config_compare.py:45-49 | from every state some draw among the first (2^64 mod bound) + 1 is accepted |
| `SplitMix64.Generator.NextU64` | evals/config_compare.py:34-39 | the new state and the mixed output |
| `SplitMix64.Generator.RandBelow` | evals/config_compare.py:41-49 | terminates; refuses bounds outside [1, 2^64]; otherwise returns the residue of the first accepted draw and leaves the state after it |
| `SplitMix64.RandBelowIsUnbiased` | evals/config_compare.py:41-49 | over one period every residue has exactly cutoff / bound accepted draws |
| `Bootstrap.Replicate` | evals/config_compare.py:331-334 | one resample mean is the mean of the differences at the drawn indices, and the generator is where those draws leave it |
| `Bootstrap.Replicates` | evals/config_compare.py:331-334 | the list of resample means |
| `Bootstrap.Pair` | evals/config_compare.py:306-317 | the paired evidence sorted by item id |
| `Bootstrap.PairedBoundedBootstrap` | evals/config_compare.py:271-360 | the report or the refusal of the specification whose numbers, tails, digests and conditions the next five rows state |
| `Bootstrap.AcceptedIff` | evals/config_compare.py:286-317 | there is a report exactly for at least one and at most 2^64 items with as many scores in [0, 1] of either arm, distinct, non-empty ids that can be encoded, and two SHA-256 digests in lower-case hex |
| `Bootstrap.ReportedNumbers` | evals/config_compare.py:306-345 | delta times the number of items is the sum of the candidate scores less that of the baseline scores, and delta and all interval ends lie between any bounds of candidate less baseline |
| `Bootstrap.ReportedRange` | evals/config_compare.py:306-345 | they lie in [-1, 1], and in [0, 1] when no item got worse |
| `Bootstrap.ReportedTails` | evals/config_compare.py:238-345 | of 20000 means of gains drawn with replacement fewer than 500 lie on either side of the two-sided interval and fewer than 1000 of the one-sided one, and with the ends themselves at least as many |
| `Bootstrap.ReportedDigests` | evals/config_compare.py:192-219 | the item digest is that of the ids in order, the seed that of the two evidence digests in order and the item digest |
| `Bootstrap.RankIntervalMirrored` | evals/config_compare.py:238-268 | the symmetric nearest-rank interval of the mirrored samples is the mirrored interval |
| `Bootstrap.SortNegated` | evals/config_compare.py:335 | sorting negated samples gives the mirrored sorted samples |
| `Bootstrap.ArmReversal` | evals/config_compare.py:206-360 | swapping baseline and candidate gives the negated delta and the negated, swapped intervals, with the same seed; refusals are the same, but for the reason when exactly one arm is empty |
| `Bootstrap.EvidenceOrderIsImmaterial` | evals/config_compare.py:271-360 | permuting the evidence changes nothing |
| `Bootstrap.IntervalsNest` | evals/config_compare.py:336-345 | the one-sided interval lies inside the two-sided one |
| `ClusterBootstrap.Group` | evals/config_compare.py:422-424 | the differences of every cluster, in item order |
| `ClusterBootstrap.DrawClusters` | evals/config_compare.py:454-460 | one draw of clusters gives the item-weighted mean of the drawn ones, and the generator is where those draws leave it |
| `ClusterBootstrap.PairedClusteredBoundedBootstrap` | evals/config_compare.py:363-489 | the report or the refusal of the specification whose numbers and conditions the next three rows state |
| `ClusterBootstrap.ClusterAcceptedIff` | evals/config_compare.py:379-427 | there is a report exactly for evidence as above with one non-empty, encodable cluster id per item and at least two clusters |
| `ClusterBootstrap.ClusterReportedNumbers` | evals/config_compare.py:422-472 | delta and the intervals as above: candidate less baseline, within the bounds of the gains, and cutting the same tails off 20000 means |
| `ClusterBootstrap.ClusterReportedRange` | evals/config_compare.py:422-472 | they lie in [-1, 1], and in [0, 1] when no item got worse |
| `ClusterBootstrap.ClusterArmReversal` | evals/config_compare.py:363-489 | swapping the arms negates delta and mirrors both intervals, with the same seed; refusals are the same, but for the reason when exactly one arm is empty |
| `ClusterBootstrap.ClusterEvidenceOrderIsImmaterial` | evals/config_compare.py:363-489 | permuting the clustered evidence changes nothing |
| `ClusterBootstrap.ClusterIntervalsNest` | evals/config_compare.py:463-472 | the one-sided interval lies inside the two-sided one |
| `ClusterBootstrap.DeltaIsWeightedMean` | evals/config_compare.py:372-377 | whatever the clusters, delta is the item-weighted mean of all of them |
| `Newcombe.WilsonContains` | evals/config_compare.py:71-84 | each Wilson interval contains its proportion and lies in [0, 1] |
| `Newcombe.WilsonEnds` | evals/config_compare.py:71-84 | neither end needs its clamp, and both are proportions x with n (p - x)^2 = z^2 x (1 - x), where the score test is exactly critical |
| `Newcombe.PhiInRange` | evals/config_compare.py:111-128 | the corrected phi correlation lies in [-1, 1] before clamping |
| `Newcombe.PhiIsCorrected` | evals/config_compare.py:111-128 | phi times its denominator is the excess of agreements over disagreements when that is not positive, and else the excess less half the trials, but at least zero; without a denominator phi is zero |
| `Newcombe.NewcombeContains` | evals/config_compare.py:87-149 | the radicands are non-negative, the interval contains delta, lies between the extreme differences of the Wilson ends, and needs no clamp |
| `Newcombe.WidthsFollowCorrelation` | evals/config_compare.py:130-149 | each squared half-width is the squared difference of two Wilson distances plus twice their product times one less the correlation |
| `Newcombe.DeltaIsDifference` | evals/config_compare.py:178-180 | the reported delta is the difference of the two proportions |
| `Newcombe.ArmsExchange` | evals/config_compare.py:87-149 | exchanging wins with losses maps (lower, upper) to (-upper, -lower) |
| `Newcombe.RootsAreUnique` | evals/config_compare.py:71-149 | the square roots, hence the bounds, are determined by counts and z |
| `PassAtK.PassAtK` | evals/sampling.py:100-117 | the product loop computes 1 - C(n-c,k) / C(n,k) and refuses arguments out of range |
| `PassAtK.SubsetCount` | evals/sampling.py:100-117 | the binomial coefficient counts k-element subsets |
| `PassAtK.EstimateIsHitRate` | evals/sampling.py:100-117 | the estimate is the fraction of k-element draws that contain a success |
| `PassAtK.EstimateRange` | evals/sampling.py:111-117 | it lies in [0, 1], is 1 exactly when fewer than k attempts failed and 0 exactly without success |
| `PassAtK.MonotoneInSuccesses` | evals/sampling.py:100-117 | more successes never lower it |
| `PassAtK.MonotoneInK` | evals/sampling.py:100-117 | more draws never lower it |
| `PassAtK.SingleDraw` | evals/sampling.py:100-117 | with one draw it is c / n |
| `PassAtK.ReportedKValues` | evals/sampling.py:120-132 | strictly increasing from 1 to n, holding exactly n and the powers of two up to n |
| `PassAtK.ReportedIsUnique` | evals/sampling.py:120-132 | that description fixes the list |
| `Sampling.CombinedAgrees` | evals/types.py:886-943 | the parent built from a sweep agrees with what the item validator derives by its own counting, exactly when the sweep is aligned |
| `Sampling.CombineMeetsValidator` | evals/sampling.py:52-97 | combining succeeds exactly on non-empty, aligned attempts, and the result is valid |
| `SamplingSummary.ReadItem` | evals/sampling.py:166-194 | a parent's row of attempt scores, or a refusal exactly when it is not complete |
| `SamplingSummary.Summarize` | evals/sampling.py:135-223 | refuses exactly incomplete evidence; otherwise seed means, moments, success counts and pass@k of the score matrix |
| `SamplingSummary.CheckStored` | evals/aggregate.py:569-703 | accepts exactly the stored summaries that satisfy every check |
| `SamplingSummary.CheckPasses` | evals/aggregate.py:653-676 | the stored pass@k entries are those of the success counts |
| `SamplingSummary.CountSolved` | evals/aggregate.py:677-687 | the whole counts behind the seed means, or a refusal when there are none |
| `SamplingSummary.PairScoreIsSeedMean` | evals/sampling.py:196-206 | the mean of the item scores is the mean of the seed means |
| `SamplingSummary.MarginsAreFeasible` | evals/aggregate.py:688-689 | the margins of an actual outcome matrix pass the feasibility test |
| `SamplingSummary.SummaryAccepted` | evals/aggregate.py:569-703 | every summary the producer returns is accepted in its stored form beside the mean of the item scores |
| `SamplingSummary.CombinedIsComplete` | evals/sampling.py:166-194 | a parent combined from a complete sweep over the schedule is what the summary asks for, of binary scores exactly when all are 0 or 1 |
| `HistoryEntry.CollectBindings` | evals/history.py:1217-1322 | one valid binding per cell in key order, or a refusal |
| `HistoryEntry.SortedOnce` | evals/history.py:1322 | sorting by key loses nothing and is idempotent |
| `HistoryEntry.HeaderKept` | evals/history.py:1323-1544 | the stored board makes no demand the fresh one did not meet |
| `HistoryEntry.BindingsKept` | evals/history.py:1544-1562 | the bindings built from fresh pairs are read back as they are from the stripped board |
| `HistoryEntry.BuiltEntryIsValid` | evals/history.py:1565-1631 | every entry the builder accepts is accepted by the reader in stored form |
| `HistoryIndex.HistoryIsSound` | evals/history.py:1565-1631 | record building and validation have the properties the index relies on |
| `HistoryIndex.ParseIndex` | evals/history.py:1785-1831 | succeeds exactly on the file of a chained, unique sequence of valid records, and returns that sequence |
| `HistoryIndex.FileIsInjective` | evals/history.py:1785-1831 | a file is an index of at most one sequence |
| `HistoryIndex.IndexFile.Append` | evals/history.py:2004-2036 | the outcome and the new bytes for every request: refused, already there, or one record appended |
| `HistoryIndex.AppendDecides` | evals/history.py:2004-2036 | equal evidence anywhere in the index means it is already there; otherwise a shared key or run id anywhere means refusal; otherwise the record is appended |
| `HistoryIndex.AppendKeepsIndex` | evals/history.py:2004-2036 | after an append the file parses to the old entries, or the old entries and the new one |
| `HistoryIndex.AppendsKeepIndex` | evals/history.py:2004-2036 | after any sequence of appends the file parses, and old bytes and entries remain a prefix |
| `HistoryIndex.ReachableParses` | evals/history.py:1785-1831 | every file reachable from the empty one parses, with unique keys and run ids |
| `HistoryIndex.AppendIsIdempotent` | evals/history.py:1996-2036 | appending equal evidence again, at any later time, changes nothing |
| `HistoryIndex.PrefixIsIndex` | evals/history.py:1785-1831 | every prefix of an index is an index |
| `HistoryIndex.ChainDetermines` | evals/history.py:1565-1567 | unless two of their records collide, a record's digest fixes it and all records before it |
| `HistoryIndex.TamperingIsRefused` | evals/history.py:1785-1831 | a file of other records that ends in a record of the index is accepted only if it is the index cut off there |
| `HistoryIndex.AlteredIsRefused` | evals/history.py:1597-1618 | altering a record before the last is refused |
| `HistoryIndex.DroppedIsRefused` | evals/history.py:1597-1618 | dropping a record before the last is refused |
| `HistoryIndex.SwappedIsRefused` | evals/history.py:1597-1618 | swapping any two records is refused |
| `Runner.SuiteRun.ObserveSource` | evals/runner.py:622-637 | a differing source puts its marker on disk as the very next event and makes the run ineligible; outside a history candidate nothing is observed |
| `Runner.SuiteRun.LoadPair` | evals/store.py:305-324 | returns the stored pair exactly when it is readable, matches fingerprint and source, has valid evidence for its place and did not fail; a file that can never be used is replaced by failed evidence |
| `Runner.SuiteRun.Quarantine` | evals/runner.py:652-668 | the pairs and the saves of discarding the scores of the given adapters, and whether there were any |
| `Runner.SuiteRun.RunPair` | evals/runner.py:671-871 | the events and the pair of one place of the schedule, for every world |
| `Runner.SuiteRun.AttestBeforeAppend` | evals/runner.py:967-1017 | the events of the last attestations, with the marker of changed adapters behind the second look at the source |
| `Runner.SuiteRun.Conclude` | evals/runner.py:1019-1034 | indexing, clearing and the exit status follow from drift and failures |
| `Runner.LookKeeps` | evals/runner.py:622-637 | a look at the source keeps the run's invariant, including that a drifted source has its marker |
| `Runner.DiscardMeaning` | evals/runner.py:652-668 | discarding turns exactly the affected scores into failed evidence of the same key and changes nothing else |
| `Runner.PairKeeps` | evals/runner.py:671-871 | handling one pair keeps the invariant: files agree with memory, every drift is marked, and evidence that did not fail is earned |
| `Runner.FinallyKeeps` | evals/runner.py:967-1017 | after the last attestations a drifted source has left no score, and a run still eligible ends with every adapter and then the source found unchanged |
| `Runner.RunPromises` | evals/runner.py:561-1034 | for every world, with observations that report it as it is: rejected, untouched, exactly when marked or not resumable; source drift leaves the marker, exit 1 and no completed or partial pair; adapter drift leaves its marker and exit 1; exactly the eligible runs without drift and failed pair index, right after every adapter and the source were found unchanged; an earlier evaluator marker disappears exactly after a failure-free run, which reused nothing; every scheduled pair is handled |
| `Runner.Run` | evals/runner.py:561-1034 | the runner's methods, put together, take exactly the run those promises are about |
| `Runner.ScoreIsEarned` | evals/runner.py:777-831 | evidence saved as not failed was validly given by its adapter between two looks that found the adapter, and a watched source, unchanged; or it was just taken over and stamped again |
| `Runner.FailureIsEarned` | evals/runner.py:652-871 | failed evidence is saved only after a drift was seen, for a failure given by the adapter, or in place of a file that can never be used |
| `SuiteOutcomes.LateScansDecide` | evals/runner.py:873-1017 | behind the pair loop, the scores of every adapter seen changed are gone from disk at the end, and without source drift every other file is as the loop left it |
| `SuiteOutcomes.LastBoardIsCurrent` | evals/runner.py:907-1017 | in every finished run the last scoreboard is saved after the last evidence |
| `SuiteOutcomes.SteadyRunSucceeds` | evals/runner.py:561-1034 | while source and adapters stay as recorded and every answer is valid and no failure, the run ends with success, indexes exactly when eligible, leaves a file that did not fail for every scheduled pair, and takes over every stored pair that is readable, valid, of this run and source, and did not fail |
| `Runner.ReusedIsUsable` | evals/runner.py:706-792 | a pair that is taken over did not fail, carries the run's fingerprint and source and valid evidence, and the run is no rerun |
| `Runner.CrashLeavesDriftUnmarkedIff` | evals/runner.py:671-1017 | a crash of any run at any event has seen an adapter drift without a marker on disk exactly inside the scan or look that first found it, or, for a history candidate behind its first scoreboard, between that scan and the marker |
| `Runner.UnmarkedWindow` | evals/runner.py:967-998 | a whole run with its trace: the scan before the index finds a changed adapter, the source is looked at again, and a crash there leaves no marker |
| `SuiteTrace.SourceDriftIsMarked` | evals/runner.py:628-636 | in every sound trace a source drift is marked by the very next event |
| `SuiteTrace.CrashKeepsSourceMarker` | evals/store.py:125-150 | after a crash at any later event the source marker is on disk |
| `SuiteTrace.IndexedIsClean` | evals/runner.py:1019-1028 | nothing is indexed after any drift was seen |
| `SuiteTrace.EvaluatorMarkedFirst` | evals/store.py:161-179 | between an adapter drift and its marker nothing is reused, scored, reported, indexed or cleared |
| `SuiteTrace.OpenIsGap` | evals/runner.py:873-998 | while an adapter drift is unmarked, the trace since it holds only looks at adapters, or, behind the first scoreboard, these and then one look at the source with what its drift entails |
| `SuiteTrace.UnmarkedIffInGap` | evals/store.py:161-179 | after a crash at any event of a sound trace, a seen drift lacks its marker exactly in one of those two shapes |
| `SuiteTrace.ClearedIsEarned` | evals/runner.py:1030-1031 | the evaluator marker is cleared only in a trace without drift and without reuse |
| `Decimals.RefusedIffTooLarge` | kairyu/pricing.py:260-264 | quantizing a product raises exactly when its exact value is at least 10^28 quanta, less half a quantum |
| `Decimals.QuantizedError` | kairyu/pricing.py:260-264 | a product rounded to 28 digits and then to quanta is within 0.55 quanta of its exact value |
| `Decimals.ShortIsExact` | kairyu/pricing.py:260-264 | a product of at most 28 digits is rounded half to even, once |
| `Decimals.RemainderValue` | kairyu/pricing.py:94-97 | one less the discount, rounded to 28 digits at most, is off by at most 5 parts in 10^28, and not at all when it has at most 28 digits |
| `Invoice.WritableIff` | kairyu/pricing.py:332-349 | the amounts of a row can be computed exactly when none of its four products is too large |
| `Invoice.CachedRateIsPrice` | kairyu/pricing.py:94-97 | the displayed cached rate is the uncached rate times one less the discount, off by at most 15 parts in 10^28, and exactly that when neither step has more than 28 digits |
| `Invoice.RowIsConsistent` | kairyu/pricing.py:332-349 | discount and total never exceed the subtotal; the charges add up to the subtotal, and the discount and the total do, unless the sum needs a 29th digit, in which case they are off by at most ten and five quanta |
| `Invoice.TotalNearExact` | kairyu/pricing.py:332-349 | the total is within 2.2 quanta, or 17.2 when the sum of the charges needs a 29th digit, of the price of the tokens at the rates of the price sheet, less the discount, without any rounding; 15 parts in 10^28 of the price of the cached tokens come on top when the cached rate had to be rounded |
| `Invoice.ShortRowsAreExact` | kairyu/pricing.py:332-349 | while no product has more than 28 digits, every amount is the exact one rounded once, and, when the cached rate was not rounded, the one at the rates of the price sheet |
| `Invoice.TotalMonotone` | kairyu/pricing.py:332-349 | then more tokens of every kind never make the invoice cheaper |
| `Invoice.TotalHardlyDrops` | kairyu/pricing.py:332-349 | in any case they lower the total by at most one quantum, or eleven when the sum of the charges needs a 29th digit, and what can be written for more can be written for less |
| `Invoice.TotalCanDrop` | kairyu/pricing.py:344-349 | amounts where three more tokens lower the total by one quantum |
| `Rounding.HalfEvenExact` | kairyu/pricing.py:260-264 | the rounding is to the nearest, and to the even one of two |
| `Ledger.TokensAccepted` | kairyu/pricing.py:170-194 | token fields are accepted exactly when, with their defaults, they are counts with cached + uncached = prompt, and then as those counts |
| `Ledger.Aggregate` | kairyu/pricing.py:197-257 | refused when any line of any source is or when the source of a selected record has no encoding; otherwise per tenant exactly the totals and the evidence of the selected records |
| `Ledger.Export` | kairyu/pricing.py:280-386 | the rows or the refusal of the specification that the next rows are about |
| `Ledger.ExportedRows` | kairyu/pricing.py:280-386 | an export has one row, in increasing order, for every selected tenant with a record not before the start and before the end of the window; each row has the sums of those records, the discount of the price sheet or none, its rates, version and currency, the charges of exactly these, and the digest and id of these records |
| `Ledger.PostedIsExact` | kairyu/pricing.py:234-253 | posting one record keeps every tenant's totals and evidence exact |
| `Ledger.TenantExport` | kairyu/pricing.py:280-386 | when the full export succeeds, a tenant-filtered one is that tenant's row of it, digest and id included |
| `Ledger.TenantExportIff` | kairyu/pricing.py:280-386 | a tenant-filtered export succeeds exactly when all lines are accepted, and the tenant and the sources of its records can be encoded and its amounts computed |
| `Ledger.FullExportIff` | kairyu/pricing.py:280-386 | the full export succeeds exactly when the export of every tenant does |
| `Ledger.UnnamedTenantBlocks` | kairyu/pricing.py:350-359 | for every price sheet, a ledger of two tenants, one without an encoding, on which only the other's export succeeds |
| `Ledger.HugeTenantBlocks` | kairyu/pricing.py:260-264 | the same with a tenant of 10^28 tokens at one quantum each |
| `Ledger.WindowsAdd` | kairyu/pricing.py:230-233 | adjacent billing windows add up field by field for every tenant |
| `Ledger.SourceOrderIsImmaterial` | kairyu/pricing.py:206 | the order in which sources are named does not change the export, nor whether it is refused |
| `Reconciliation.AggregateLedgers` | kairyu/usage_reconciliation.py:104-127 | per-tenant totals of all ledger records, or a refusal |
| `Reconciliation.AggregateRequests` | kairyu/usage_reconciliation.py:130-165 | per-tenant totals of the metered events; refused exactly on malformed lines and repeated events |
| `Reconciliation.RelativeErrorZero` | kairyu/usage_reconciliation.py:168-171 | the error is non-negative and zero exactly for equal counts |
| `Reconciliation.Reconcile` | kairyu/usage_reconciliation.py:174-214 | a report over exactly the tenants of either side, whose maximum is attained and decides the verdict |
| `Reconciliation.PassedIff` | kairyu/usage_reconciliation.py:168-214 | the report passes exactly when for every tenant of either side and every field the deviation is less than the threshold percentage of what the requests say; where they say nothing, any deviation is 100 percent |
| `Reconciliation.ZeroErrorIffEqual` | kairyu/usage_reconciliation.py:190-214 | the maximum is zero exactly when both sides agree on every tenant and field |
| `Reconciliation.EqualRecordsReconcile` | kairyu/usage_reconciliation.py:174-214 | equal record multisets reconcile with error 0 and pass |
| `Reconciliation.PromptIsSplit` | kairyu/usage_reconciliation.py:83-101 | in all totals cached plus uncached is the prompt |
| `LedgerFiles.ReadersAgree` | kairyu/usage_reconciliation.py:33-52 | of a line the export accepts, the reconciliation sees the same record, unless the line is not strict UTF-8, starts with a byte-order mark or passes for a wider encoding; then it refuses it |
| `LedgerFiles.InvoiceAgrees` | kairyu/usage_reconciliation.py:104-127 | of ledgers whose lines the invoice export accepts, the reconciliation accepts exactly those with plain lines only, and finds the same usage for every tenant |
| `LedgerFiles.MarkedLedger` | kairyu/pricing.py:211-218 | a ledger whose billable record stands behind a byte-order mark is exported and refused by the reconciliation |
| `Utf8.StrictIsLenient` | kairyu/usage_reconciliation.py:35 | what decodes strictly decodes to the same text when encoded surrogates pass |
| `Structured.LeafSchedule` | evals/structured.py:482-503 | the leaves in item-major, seed-minor order, or a refusal |
| `Structured.LeafCount` | evals/structured.py:482-503 | there are items times attempts of them |
| `Structured.ArmCounts` | evals/structured.py:509-523 | accepted and rejected partition the observations, valid and malformed the accepted ones, and correct <= conforming <= valid <= accepted |
| `Structured.VerdictIsGrade` | evals/structured.py:375-411 | every arm has exactly one grade - no answer, turned down, unreadable, nonconforming, wrong, right - and all flags of the verdict follow from it |
| `Structured.ArmAccepted` | evals/structured.py:509-552 | an arm summary is accepted exactly when its counts and tokens are safe integers |
| `Structured.StructuredSummary` | evals/structured.py:554-641 | withheld exactly for incomplete evidence; otherwise the summary of the judged leaves |
| `Structured.HeadlineIsAccuracy` | evals/structured.py:830-837 | the mean of the item scores is the constrained task accuracy over all leaves |
| `Structured.LatencyAccepted` | evals/structured.py:887-897 | the mean of the latency differences is the difference of the mean latencies |
| `Structured.PairedCostAccepted` | evals/structured.py:850-876 | the mean total-token delta is the sum of the prompt and completion deltas |
| `Structured.SummaryAcceptedIff` | evals/structured.py:682-898 | for evidence that meets its validators, the summary is accepted exactly when items times attempts and the tokens of either arm over all leaves are safe integers |
| `Structured.UnsafeTotalIsRefused` | evals/structured.py:682-898 | any two valid token totals that together leave the safe range give valid evidence whose summary is returned and refused |

## Left out

- Floating-point rounding and the tolerances of `math.isclose`: arithmetic is exact.
- ContainerLease.NoContainerLeak: does not model process exit killing the helper, interrupts outside the guarded block, or the Docker command line.
- AuditWriter.BarrierPublishes: treats one batch write as all or error; partial writes inside one `handle.write` are not modelled.
- Sse.IterSseData: states payload bytes; decoding them as UTF-8 is left out.
- HistoryEntry.BuiltEntryIsValid: the run metadata schema, adapter registry, dataset and policy checks are parameters that depend on the data the source gives them.
- HistoryIndex.ParseIndex: names and other texts of a record are valid Unicode; a record with a lone surrogate, which has no canonical encoding, is left out.
- HistoryIndex.IndexFile.Append: the file system checks, the lock and the atomic replacement are one atomic update.
- Runner.Run: downloads, the reports' contents, progress and the fields of a pair other than key, status, fingerprint, source and remarks are left out; an exception of the store ends the run, which `SuiteTrace.CrashKeepsSourceMarker` and `Runner.CrashLeavesDriftUnmarkedIff` cover.
- Invoice.WritableIff: exponents beyond the range of Python's decimal context are left out, and so are counts of more than 4300 digits, which Python does not print.
- LedgerFiles.InvoiceAgrees: JSON parsing and the decoding of UTF-16 and UTF-32 are parameters; of JSON only that no object is blank, starts with a byte-order mark or contains a zero.
- Ledger.Export: the CSV text and the formatting of decimals and timestamps are left out; digest and id are functions of what they are computed from.
- Structured.StructuredSummary: JSON parsing and JSON Schema validation are predicates of the corpus row.
- kairyu/outputs.py, HTTP, dataset downloads, command line, rendering and telemetry: plumbing with only easy properties.
- The engine, scheduler, cache, router and replica pool are not part of this model.
