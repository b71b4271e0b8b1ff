# A verified model of the metrics engine

This project models the storage life cycle of the timeless metrics engine in Dafny and proves that its fast forms agree
with the simple ones they stand for. A point is put into a write buffer inside a transaction; it becomes a row (a chunk of
samples with metadata) when a threshold, the memory budget, a savepoint or the commit says so; rows are compacted by a
size-tiered sweep that works in bounded steps; a rollup cycle with watermarks turns them into buckets, can stop and resume,
and passes over tiers it knows to be settled; rollup chunks are merged; and pruned queries read it all back. The simple
form behind all of it is a multiset of samples per series.

`dafny verify dfyconfig.toml` checks the whole project.

How it is laid out:

- `Sequences`, `Samples`, `ChunkTable`, `SeriesIndex`: sequences and stable sorting; samples with exact values and a NaN;
  rows, their metadata, what a series holds (`Contents`) and the range read (`RangeQuery`).
- Compaction: `CompactionPlanner` (the groups of a series), `CompactionSweep` (the plan queue and reading ahead),
  `CompactionExec` (rewriting and swapping rows), `CompactionRun` (one step), `CompactionLeft` (what is left when nothing is
  planned), `CompactionFixedPoint` and `CompactionProgress` (whole sweeps), `WritePotential` and `WriteBound` (the amortised bound), `ChunkEncoding` and
  `Compactor` (the loops and the object that hold the state).
- Rollups: `RollupKernel`, `RollupStore`, `RollupPass`, `RollupScan`, `RollupCycle`, `RollupStep` (buckets, chunks, one
  visit, one walk, one step), `RollupSettled`, `RollupBottomExample`, `RollupBounded`, `RollupLate`, `RollupLateExample`,
  `RollupIncremental` (whole runs), `RollupMergePlan`, `RollupMerge`, `RollupMergeStep`, `RollupMergeLater`,
  `RollupMergeStale`, `RollupRewrites` (merges), `RollupEngine` (the loops and the object).
- Transactions: `TxnJournal` (frames against full copies), `Transactions` (rows and buffers against a log), `Scatter` and
  `BatchWrite` (batches), `TxnSession` (the object with buffers, queue and memory count).
- Caches: `SelectionCache` (an interleaving machine), `Totals`.
- Queries: `ReadOrder`, `Latest`, `ReadBatch`, `Aggregate`, `Windows`.
- Columns: `Bytes`, `ColumnCodec`, `StringColumn`, `StringDecode`, `RollupPayload`.

Code that changes state step by step is a class or a method with loops, proved equal to a specification function; the
theorems are about those functions and about runs of them.

Where the code does not keep what one would expect of it, the model keeps the code, gives an input that shows it, and
proves the exact condition:

- A bounded rollup cycle with a flush between its steps may settle a tier that still has a sample unrolled, because a flush
  does not reset the record of how far the walk of a tier has come. `RollupLateExample.LateSampleIsLost` is a run in which
  a sample is never rolled up at the same high water; `RollupLate.SettlesRightly` proves that the tier is rightly settled
  if and only if no flush since the cycle began put a due sample into a group the walk was already past.
- The reader of the selection cache checks the catalog's generation before it reads the epoch. A commit between the two
  lets an answer of the old catalog in under the new epoch: `SelectionCache.StaleAnswer`.
  `SelectionCache.QuietIsCurrent` proves that an entry is an answer of the present catalog if and only if the catalog did
  not change between that check and that read.
- Forgetting settled tiers does nothing while every settled end is the least 64-bit timestamp, which is also the mark for
  "none settled". `RollupBottomExample.BottomSampleIsLost` gives three runs, a pass followed by a deletion, a rollback or a
  flush, after which a sample at that timestamp is never rolled up at the same high water. `RollupSettled.ApplySound` proves,
  operation by operation, that the settled ends stay true if and only if the rows and rollups it leaves have no sample at
  that timestamp, in a tier so settled, that no bucket covers; `RollupSettled.SettledRun` proves it of whole runs, and
  `RollupIncremental.IncrementalIsOneShot` says which group a pass leaves out for it.
- A rollup merge plan outlives deletions of rollups, and row ids are given out again. `RollupMergeStale.ReusedIdsBreak` is a
  plan and a history in which the presence check finds two planned chunks with a newer one between them;
  `RollupMergeStale.LatePlanExact` proves that applying a plan of any age keeps every group's buckets if and only if no run
  it still finds has another chunk of its group between its ends.
- Text and rollup payloads of more than 64 MiB can be encoded and not read back: `StringColumn.LongTextIsLost` and
  `RollupPayload.ManyBucketsAreLost`. `StringColumn.StrRoundTrip` and `RollupPayload.PayloadRoundTrip` hold if and only if
  what has to be inflated is within the cap.

Conventions: timestamps are mathematical integers, with the 64-bit bounds where the code checks for overflow or uses the
extremes as marks; values are reals with one NaN, so sums are exact; zstd and pco are function-valued parameters assumed
lossless (`ColumnCodec.Lossless`); rows are kept in ascending row id and new rows take ids above all of theirs, as in
SQLite, where an id freed at the end is given out again; a planned chunk is recognised by id, series, first timestamp and
count, as the code does, so that a reused row id is part of the model; the clock, which ends a step early, is a parameter that may stop it after any group but the first.

## Model

| member | source | states |
|---|---|---|
| ChunkTable.RangeQueryExact | crates/timeless-core/src/engine.rs:3969-4001 | a range read is sorted by timestamp and returns exactly the stored samples in range, with their multiplicities, however the series is cut into rows |
| ChunkTable.SameContentsSameReads | crates/timeless-core/src/engine.rs:3969-4001 | two tables that hold the same samples answer every range read with the same sorted multiset |
| ChunkEncoding.FoldMinMaxSum | crates/timeless-core/src/engine.rs:2839-2851 | one pass gives the least, the greatest and the sum of the values; least and greatest ignore NaN, the sum absorbs it |
| Samples.MinOfMeaning | crates/timeless-core/src/engine.rs:2839-2851 | the least is NaN exactly when no value is a number; otherwise it occurs and no number is below it |
| Samples.MaxOfMeaning | crates/timeless-core/src/engine.rs:2839-2851 | the greatest is NaN exactly when no value is a number; otherwise it occurs and no number is above it |
| Samples.SumOfMeaning | crates/timeless-core/src/engine.rs:2839-2851 | the sum is NaN exactly when some value is, and otherwise the values added up in ordinary arithmetic |
| ChunkEncoding.EncodePartition | crates/timeless-core/src/engine.rs:2853-2941 | no row for no samples; otherwise a row that holds the same samples, sorted, sorted input unchanged, whose metadata (ends, count, folds, the first value at the last timestamp) is exact |
| ChunkEncoding.DecodeRange | crates/timeless-core/src/engine.rs:6013-6082 | decoding a row gives its samples in range, in their order |
| CompactionPlanner.RawRunsFlatten | crates/timeless-core/src/engine.rs:3534-3607 | the raw runs of a series, put end to end, are its raw chunks: none dropped, none taken twice, no run empty |
| CompactionPlanner.RawRunsFull | crates/timeless-core/src/engine.rs:3565-3590 | raw runs are packed full: where one ends, the next chunk would take it past 2048 points |
| CompactionPlanner.RawGroupsInOrder | crates/timeless-core/src/engine.rs:3559-3590 | either no raw chunk of a series is planned or all are, those that begin earlier first |
| CompactionPlanner.MergeRunsFull | crates/timeless-core/src/engine.rs:3617-3645 | where a merge run ends, the next chunk is larger than the run or would take it past 2560 points |
| CompactionPlanner.MergeRunsHalf | crates/timeless-core/src/engine.rs:3617-3645 | built from chunks in size order, every merge run of two or more holds at least twice its largest member |
| CompactionPlanner.SortedRunsHalf | crates/timeless-core/src/engine.rs:3617-3676 | so, of any chunks at all, the check made when a run is pushed turns none of two or more away for its largest |
| CompactionPlanner.PlanSeriesShape | crates/timeless-core/src/engine.rs:3534-3676 | every planned group is of one series and one kind and made of the chunks given; a merge has either one chunk over 2048 points, or under-target chunks of at most 2560 points together, none more than half of them |
| CompactionPlanner.PlanSeriesCount | crates/timeless-core/src/engine.rs:3534-3607 | no chunk is a source of a series' plan more often than it is a chunk |
| CompactionPlanner.WrittenLatelyOnlyPostpones | crates/timeless-core/src/engine.rs:3534-3607 | a series with nothing to do once it has ended has nothing to do while it is still being written |
| CompactionPlanner.PushCompressedGroup | crates/timeless-core/src/engine.rs:3647-3676 | a run is queued exactly when it has two or more chunks, at least twice the points of its largest, and is long enough or fills half a chunk |
| CompactionPlanner.PlanCompressedGroups | crates/timeless-core/src/engine.rs:3617-3645 | the loop over size-sorted chunks appends exactly the specified merge groups |
| CompactionPlanner.PlanRawGroups | crates/timeless-core/src/engine.rs:3534-3607 | the loop over raw chunks appends one group for each raw run |
| CompactionPlanner.PlanOversized | crates/timeless-core/src/engine.rs:3534-3607 | every oversized chunk becomes a group of its own |
| CompactionPlanner.PlanMetricsSeries | crates/timeless-core/src/engine.rs:3534-3607 | the plan of a series: its raw runs, its oversized chunks and its merges, appended to the groups so far |
| CompactionExec.RewritesConserve | crates/timeless-core/src/engine.rs:3143-3284 | the chunks a group is rewritten to hold the samples it was made from, each as often |
| CompactionExec.SwapConserves | crates/timeless-core/src/engine.rs:3143-3284 | a step leaves a valid table in which every series has the same multiset of samples, every new row is compressed, has at most 2048 points and exact metadata, and every range read returns the same sorted multiset |
| WritePotential.MergeFrees | crates/timeless-core/src/engine.rs:3617-3676 | a run of under-target chunks, none more than half of it, frees at least the potential its rewriting costs, in all three cases of its size against 2048 and 2560 |
| WritePotential.GroupPays | crates/timeless-core/src/engine.rs:3143-3284 | every planned group pays: twelve times the points it brings into compressed chunks and the potential it frees cover what it rewrites and what it leaves, whatever has happened to the table since it was planned |
| WriteBound.AmortisedWriteBound | crates/timeless-core/src/engine.rs:3202-3213 | at every moment of every run of steps, flushes, deletes, restarts and rollbacks, as the clock moves, the points rewritten by merges of under-target compressed chunks are at most twelve times the points that entered compressed chunks; a rollback takes both counts back with the rows |
| CompactionRun.SelectGroups | crates/timeless-core/src/engine.rs:3072-3141 | a step takes groups from the front, at least one if there is any; it exceeds its series, point or byte budget only with a single group, and it stops only where one more would exceed it |
| CompactionRun.WorkStepSafe | crates/timeless-core/src/engine.rs:3072-3284 | a step keeps the table valid and the queue's invariant (no chunk in two groups, one series and kind a group, work put back in order), does every chunk once, and changes no series' contents and no range read |
| CompactionRun.StillThereIs | crates/timeless-core/src/engine.rs:3388-3407 | a queued group is done only if every source is found: a row under its id, of its series, with its first timestamp and count |
| CompactionSweep.StretchKeepsQueue | crates/timeless-core/src/engine.rs:3409-3493 | reading the next stretch of series keeps the queue's invariant: no chunk ever a source of two queued groups |
| CompactionSweep.StretchGroupsInOrder | crates/timeless-core/src/engine.rs:3480-3491 | a stretch's groups are those planned for its series: compressions first, then by series, then by what begins earliest |
| CompactionSweep.ContinuesKeepsCover | crates/timeless-core/src/engine.rs:3328-3351 | a sweep that says it is over leaves no series for which replanning would find a group |
| CompactionLeft.MergesIffStretch | crates/timeless-core/src/engine.rs:3617-3676 | something of a series is merged if and only if, in size order, there is a stretch of chunks that are enough (in number, or two or more with 1024 points), fit 2560 points and are each no larger than those before it together |
| CompactionLeft.NothingPlanned | crates/timeless-core/src/engine.rs:3534-3676 | nothing of a series is planned if and only if, of its rows before the cutoff: there is no raw one, or the series was written lately and they are under both minimums; no compressed one is over 2048 points; and no stretch of the smaller ones, in size order, would merge |
| CompactionLeft.NothingToDoMeans | crates/timeless-core/src/engine.rs:3328-3351 | planning the whole index finds no group if and only if that holds of every series |
| CompactionFixedPoint.StepKeepsSweep | crates/timeless-core/src/engine.rs:2988-3351 | in a run without deletions every step keeps the sweep's invariant, goes on with the same cutoff, and reports no more only when replanning the whole index finds nothing |
| CompactionFixedPoint.FlushKeepsSweep | crates/timeless-core/src/engine.rs:1880-1893 | chunks stored between steps are not missed: the invariant that everything unread, touched or queued covers all there is to do survives every flush |
| CompactionFixedPoint.SweepRun | crates/timeless-core/src/engine.rs:2988-3351 | over every run of steps and flushes, whatever their cutoffs and budgets, every series holds what was stored of it, and wherever a step reports no more, every series is compacted before its cutoff (the condition of CompactionLeft.NothingPlanned) and replanning the whole index finds no group |
| CompactionProgress.StepIsProgress | crates/timeless-core/src/engine.rs:2988-3004 | a step that reports more brings the end nearer: fewer raw or oversized chunks, or as many and fewer under-target ones, or the same rows and less left to read |
| CompactionProgress.SweepEnds | crates/timeless-core/src/engine.rs:3006-3043 | steps for one cutoff, with whatever budgets and stopped wherever the clock says, come to one that reports no more; then every series is compacted before the cutoff, replanning the whole index finds no group, and every series holds what it held |
| Compactor.PlanMetricsGroups | crates/timeless-core/src/engine.rs:3497-3531 | one pass over the index entries of many series is the specified walk, and plans each series as if alone |
| Compactor.WalkPlansEach | crates/timeless-core/src/engine.rs:3497-3531 | walking the entries of ascending series and closing a series where the next begins gives the plans of the series one by one |
| Compactor.PlanMetricsStretch | crates/timeless-core/src/engine.rs:3409-3493 | the loop reads the next series, or touched ones, and queues their groups as specified |
| Compactor.RefillMetricsPlan | crates/timeless-core/src/engine.rs:3309-3320 | reading ahead goes on until enough groups are queued or the stretches of a step are used up |
| Compactor.MetricsSweepContinues | crates/timeless-core/src/engine.rs:3328-3351 | whether the sweep goes on, having read ahead where nothing was queued |
| Compactor.EncodePieces | crates/timeless-core/src/engine.rs:3202-3264 | sorted samples are cut at 2048 and encoded in order under consecutive ids, each piece with exact metadata |
| Compactor.RewriteGroups | crates/timeless-core/src/engine.rs:3143-3264 | the groups are rewritten from the front until the clock says stop, the first always; each rewriting holds its group's samples, cut and encoded, under consecutive ids from the first given |
| Compactor.SwapSelected | crates/timeless-core/src/engine.rs:3143-3284 | of the selected groups those still there are done or put back, in order; the sources of those done are replaced by their rewriting; the queue stays valid |
| Compactor.Compactor.InsertChunks | crates/timeless-core/src/engine.rs:1866-1901 | new rows, under consecutive ids above every raw row's, are appended and the sweep is told of the series it could act on |
| Compactor.Compactor.DeleteChunks | crates/timeless-core/src/engine.rs:6105-6169 | rows are taken out and nothing else changes; the queue stays valid, its vanished sources are found out later |
| Compactor.Compactor.Step | crates/timeless-core/src/engine.rs:3049-3304 | one bounded step is the specified one, keeps everything valid and leaves every series' contents |
| Compactor.Compactor.CompactPartitions | crates/timeless-core/src/engine.rs:2988-3004 | the unbounded loop of steps terminates; then every series is compacted before the cutoff, replanning the whole index finds no group, and every series holds what it held |
| RollupKernel.RollupBuckets | crates/timeless-core/src/rollup.rs:57-93 | the loop that updates the last bucket in place gives the specified buckets, and fails exactly where a bucket start would not fit |
| RollupKernel.OverflowsIff | crates/timeless-core/src/rollup.rs:57-93 | the kernel refuses exactly when a bucket would start below the least 64-bit timestamp |
| RollupKernel.BucketsOfCovers | crates/timeless-core/src/rollup.rs:57-93 | every bucket is the naive summary (count, sum, least, greatest, last) of the samples in its span, the starts rise, and every sample is in a bucket |
| RollupKernel.BucketsOfSplit | crates/timeless-core/src/rollup.rs:57-93 | at a bucket boundary the kernel may stop and start again: the buckets of the whole are those of the two parts |
| RollupStore.WatermarkOfStored | crates/timeless-core/src/engine.rs:1377-1388 | the watermark of a group is the end of its last stored bucket, or none |
| RollupStore.QueryMeaning | crates/timeless-core/src/engine.rs:5831-5858 | a rollup query returns exactly the stored buckets whose span meets the range, in order: skipping chunks loses nothing |
| RollupStore.QueryMember | crates/timeless-core/src/engine.rs:5831-5858 | those are the buckets that begin at or before the end of the range and end at or after its start, in rising order |
| RollupStore.StoredSame | crates/timeless-core/src/engine.rs:5831-5858 | what a group has stored depends on which buckets there are, not on how they are cut into chunks |
| RollupPass.ProduceToMeaning | crates/timeless-core/src/engine.rs:5580-5584 | the coverage end of a tier is the last bucket end at least one width below the newest sample |
| RollupPass.HighWaterMeans | crates/timeless-core/src/engine.rs:5144-5152 | the high water is the greatest last timestamp of a row, and none where that is the least timestamp |
| RollupPass.NotDue | crates/timeless-core/src/engine.rs:5689-5736 | a group the index says is not due has no sample unrolled |
| RollupPass.VisitNothing | crates/timeless-core/src/engine.rs:5737-5772 | a visit writes nothing exactly when the tier has no coverage end yet or the group has no sample unrolled up to it |
| RollupPass.FoundIsExact | crates/timeless-core/src/engine.rs:5737-5772 | what a visit writes is one chunk past the watermark, ending by the coverage end, that reaches every sample that was due |
| RollupPass.VisitRollsUp | crates/timeless-core/src/engine.rs:5737-5772 | once its chunk is stored the rollups are still valid and the group has nothing unrolled up to the coverage end |
| RollupScan.WalkFinds | crates/timeless-core/src/engine.rs:5611-5772 | where the tiers passed over are rightly settled, what a walk collects is what visiting every group it came past would write |
| RollupScan.WalkPassable | crates/timeless-core/src/engine.rs:5737-5772 | a walk that does not fail came past no group whose buckets start too early, except in tiers it passed over |
| RollupScan.WalkSettles | crates/timeless-core/src/engine.rs:5774-5786 | a walk settles only tiers whose last group it came past |
| RollupScan.WalkOwes | crates/timeless-core/src/engine.rs:5774-5786 | a walk settles every tier it closes that was not settled |
| RollupCycle.AllGroupsRolledUp | crates/timeless-core/src/engine.rs:5586-5821 | once a walk came past every group, what a group still has unrolled up to its coverage end it had before, and its tier was passed over |
| RollupStep.FinishWalks | crates/timeless-core/src/engine.rs:5586-5821 | a step that does not fail grows every group it came past by what a visit finds, or leaves it as it was where its tier was passed over, rightly or not, touches no other, and leaves a valid state |
| RollupStep.StepSettlesWhole | crates/timeless-core/src/engine.rs:5611-5821 | a step settles a tier only if it entered the tier itself, or was taken up in it and the walk of it began at this high water |
| RollupStep.PassCompletes | crates/timeless-core/src/engine.rs:5166-5171 | a pass in one go that does not fail leaves every tier rolled up to its coverage end and the settled ends true |
| RollupSettled.FlushKeepsSound | crates/timeless-core/src/engine.rs:1870-1875 | a flush leaves the settled ends true if and only if it does not bring, while every settled end is the least timestamp, a sample at that timestamp that no bucket covers |
| RollupSettled.ForgetsExactly | crates/timeless-core/src/engine.rs:1278-1302 | exactly which operations forget the settled ends: a flush only with a row that begins at or before the greatest of them |
| RollupSettled.CycleKept | crates/timeless-core/src/engine.rs:1823-1834 | only another ladder and a rollback begin the next cycle anew |
| RollupSettled.ApplySound | crates/timeless-core/src/engine.rs:1278-1302 | every operation (flush, compaction, merge, deletion of rows or rollups, ladder change, rollback, refresh, pass) leaves the settled ends true if and only if it strands no such sample: only a flush, a deletion of rollups, a rollback or a refresh can, and the condition is on the rows and rollups it leaves |
| RollupSettled.SettledRun | crates/timeless-core/src/engine.rs:1278-1302 | over every run of those operations at all, no series has a stored sample past its watermark and up to the end its tier is settled to, at every moment so far, if and only if no operation so far stranded a sample at the least timestamp |
| RollupSettled.SettledRunOffTheBottom | crates/timeless-core/src/engine.rs:1278-1302 | where no sample is ever at the least timestamp that holds of every run |
| RollupSettled.SettledAboveTheBottom | crates/timeless-core/src/engine.rs:1278-1302 | over every run, whatever was stranded, a tier settled to an end above the least timestamp has nothing unrolled up to it |
| RollupBottomExample.BottomSampleIsLost | crates/timeless-core/src/engine.rs:1278-1286 | runs of a pass and then a deletion, a rollback or a flush that leave a tier settled with a sample unrolled, which in each of the three the next pass does not write |
| RollupSettled.PassingOverIsExact | crates/timeless-core/src/engine.rs:5611-5628 | passing over tiers settled to the present coverage end writes exactly what walking every group would |
| RollupBounded.BoundedIsUnbounded | crates/timeless-core/src/engine.rs:5516-5527 | bounded steps repeated until one reports no more leave the state one pass in one go leaves: the same rollup rows under the same ids, and the same tiers settled to the same ends |
| RollupBounded.StepDoes | crates/timeless-core/src/engine.rs:5640-5660 | a bounded step writes at most its budget of pieces and looks at no more than 64 times as many groups of tiers it does not pass over; it stops short of the end only when it has done the one or the other |
| RollupBounded.OpenCycleBound | crates/timeless-core/src/engine.rs:5586-5821 | of steps that follow one another, fewer than there are groups can report more |
| RollupBounded.OpenCycleNext | crates/timeless-core/src/engine.rs:5586-5821 | where the pass in one go succeeds, so does every next bounded step, whatever its budget |
| RollupBounded.BoundedCycleEnds | crates/timeless-core/src/engine.rs:5516-5527 | repeating bounded steps with any budgets of at least one ends after fewer steps than there are groups: with no more to do and in the state of the pass in one go where that pass succeeds, and with a failed step where it fails |
| RollupLate.CourseLeaves | crates/timeless-core/src/engine.rs:5586-5821 | over a cycle with any flushes between its steps, something due of a tier not yet wholly behind the walk is left behind it if and only if some flush put it there |
| RollupLate.SettlesRightly | crates/timeless-core/src/engine.rs:5774-5786 | the tier a bounded cycle closes and settles has nothing unrolled if and only if no flush since the cycle began overtook its walk, whatever else is settled and whether rightly |
| RollupLateExample.LateSampleIsLost | crates/timeless-core/src/engine.rs:5774-5786 | a run of two bounded steps with a flush between them that settles a tier with a sample unrolled, which the next pass does not write |
| RollupIncremental.EmptySteady | crates/timeless-core/src/engine.rs:5586-5610 | an empty table is where such runs begin |
| RollupIncremental.OrderlyRun | crates/timeless-core/src/engine.rs:5737-5772 | if samples come on time with distinct timestamps and none is deleted, then at every moment of every run of flushes, compactions, merges, ladder changes and passes the stored buckets of every group are the kernel's buckets of all its samples up to its watermark |
| RollupIncremental.IncrementalIsOneShot | crates/timeless-core/src/engine.rs:5586-5821 | after any such run that ends in a pass, a group of the ladder holds what a single pass over the same rows would write, which is the kernel's buckets of all samples due, if and only if it is not a group with a sample at the least timestamp that its tier, settled to that timestamp, was passed over with |
| RollupMergePlan.PlanGroupShape | crates/timeless-core/src/engine.rs:5308-5380 | every planned run is a stretch of neighbours of at least two chunks and at most 256 buckets; in a live group it is also long enough and at least twice its largest chunk |
| RollupMergePlan.EndedLeft | crates/timeless-core/src/engine.rs:5351-5380 | a group of an ended series is left alone if and only if no two neighbours fit one chunk of 256 buckets |
| RollupMergePlan.LivePlanned | crates/timeless-core/src/engine.rs:5308-5346 | a live group is merged wherever its newest four or more chunks fit 256 buckets, each no larger than the newer ones together and none more than half of all |
| RollupMergePlan.CollectRuns | crates/timeless-core/src/engine.rs:5308-5380 | the loop over a group's chunks collects the specified runs |
| RollupMergePlan.PlanEndedGroup | crates/timeless-core/src/engine.rs:5351-5380 | the plan of a group whose series has no raw rows left |
| RollupMergePlan.PlanLiveGroup | crates/timeless-core/src/engine.rs:5308-5346 | the plan of a group that still grows |
| RollupMerge.MergeAllKeeps | crates/timeless-core/src/engine.rs:5384-5509 | merging any runs that share no chunk and have nothing between their members leaves valid rollups in which every group has the same stored buckets |
| RollupMerge.MergesUnseen | crates/timeless-core/src/engine.rs:5384-5509 | every rollup query, for every range, and every watermark is the same after the merges |
| RollupMergeStep.PlanKeysMergeable | crates/timeless-core/src/engine.rs:5207-5250 | the plan of a stretch of distinct groups is made of disjoint runs of neighbours, each within one chunk |
| RollupMergeStep.BatchIsAll | crates/timeless-core/src/engine.rs:5384-5509 | writing all the new chunks and then deleting all the old ones is merging the runs one after another |
| RollupMergeStep.OnePerRun | crates/timeless-core/src/engine.rs:5384-5509 | each planned run becomes one chunk |
| RollupMergeStep.AllKeysShape | crates/timeless-core/src/engine.rs:5207-5250 | the groups visited are all there are, each once |
| RollupMergeStep.AllKeysInOrder | crates/timeless-core/src/engine.rs:5207-5250 | by series and then resolution |
| RollupMergeStep.NothingToMerge | crates/timeless-core/src/engine.rs:5207-5250 | a round that plans nothing leaves every group so: no two neighbours that fit where the series has no raw rows, no such newest chunks where it has |
| RollupMergeStep.StillThereIs | crates/timeless-core/src/engine.rs:5255-5291 | a planned run is applied only if every chunk is found: one under its id, of its group, with its start and as many buckets |
| RollupMergeStep.ApplyRollupMerges | crates/timeless-core/src/engine.rs:5384-5509 | runs whose chunks are still found by id, series, resolution, start and count, and whose rows' buckets rise, are rewritten; the rows left, the ids removed and the number written are as specified |
| RollupMergeLater.LatePlanUnseen | crates/timeless-core/src/engine.rs:5256-5291 | a plan applied after any passes, drops and other merges keeps the rollups valid and every group's buckets, as long as no id it names was given out again |
| RollupMergeStale.LatePlanExact | crates/timeless-core/src/engine.rs:5384-5509 | applied to any rollups at all, a plan keeps them valid and every group's buckets if and only if no run it rewrites has another chunk of its group between its ends |
| RollupMergeStale.ReusedIdsBreak | crates/timeless-core/src/engine.rs:5256-5291 | the planner's plan and a history, a deletion of what begins after a moment and two writes with ids given out again, after which applying the plan breaks the group |
| RollupMergeStep.MergeRollups | crates/timeless-core/src/engine.rs:5191-5250 | planning every group and applying the plan leaves valid rollups with the same stored buckets, and as many new chunks as planned runs |
| RollupRewrites.RollupRewriteBound | crates/timeless-core/src/engine.rs:5293-5346 | from an empty table, over every run of writes, drops and merges, live merges rewrite at most eight times the buckets written |
| RollupEngine.ReadWatermarks | crates/timeless-core/src/engine.rs:1377-1388 | one read gives the watermark of every series of a stretch, and of no other |
| RollupEngine.ReadDue | crates/timeless-core/src/engine.rs:5689-5736 | one read gives the series of a stretch that have a row past their watermark and not past the coverage end |
| RollupEngine.VisitGroup | crates/timeless-core/src/engine.rs:5737-5772 | what the walk does with a group from the prepared reads is the specified visit |
| RollupEngine.TakeTurn | crates/timeless-core/src/engine.rs:5629-5786 | one turn of the walk, with its prepared reads renewed where they end, is the specified turn |
| RollupEngine.Rollups.Unsettle | crates/timeless-core/src/engine.rs:1278-1286 | every settled end is forgotten, unless all of them are the mark for none; the cached maximum stays the maximum |
| RollupEngine.Rollups.SettleTiers | crates/timeless-core/src/engine.rs:1289-1302 | the tiers closed are settled to their ends and the cached maximum is raised to them |
| RollupEngine.Rollups.IndexInsertNew | crates/timeless-core/src/engine.rs:1866-1901 | new rows unsettle exactly where one of them begins at or below the greatest settled end |
| RollupEngine.Rollups.BeginWalk | crates/timeless-core/src/engine.rs:5586-5610 | a cycle begins with the series and the high water of its start, or goes on with those it began with |
| RollupEngine.Rollups.WalkGroups | crates/timeless-core/src/engine.rs:5629-5786 | the walk within its budget of writes and scans is the specified one |
| RollupEngine.Rollups.RollupInner | crates/timeless-core/src/engine.rs:5586-5821 | one step, bounded or not, failed or not, is the specified one |
| RollupEngine.Rollups.Rollup | crates/timeless-core/src/engine.rs:5166-5171 | a pass and then, if it succeeds, every group planned and merged; if the pass succeeds nothing is unrolled up to any coverage end, and every group has the buckets of the pass; succeed or fail, the settled ends stay true |
| RollupEngine.Rollups.MergeAllRollups | crates/timeless-core/src/engine.rs:5191-5194 | every group is planned, by whether its series has raw rows, and merged; that leaves what every group has stored and changes nothing else |
| RollupEngine.Rollups.SetRollups | crates/timeless-core/src/engine.rs:5092-5102 | a new ladder forgets the settled ends and starts the cycle over |
| RollupEngine.Rollups.DeleteRollupRows | crates/timeless-core/src/engine.rs:5933-5965 | rollup rows are dropped and the settled ends forgotten |
| RollupEngine.Rollups.RollbackFrame | crates/timeless-core/src/engine.rs:1819-1846 | a rollback brings back rows, rollups and ladder and forgets what was settled since |
| TxnJournal.StepAgrees | crates/timeless-core/src/engine.rs:1728-1853 | every step of the frames is a step of a stack of full copies: the same ladder and catalog, and no cached id that the catalog does not have |
| TxnJournal.JournalRefinesCopies | crates/timeless-core/src/engine.rs:1728-1853 | over every sequence of begins, savepoints, releases, rollbacks, commits, ladder changes and series created or removed, the frames restore the ladder that full copies restore and the resolve cache never disagrees with the catalog |
| TxnJournal.Journal.TxnBegin | crates/timeless-core/src/engine.rs:1648-1660 | the first frame is opened |
| TxnJournal.Journal.TxnSavepoint | crates/timeless-core/src/engine.rs:1728-1739 | a frame is opened on top of the others |
| TxnJournal.Journal.TxnRelease | crates/timeless-core/src/engine.rs:1743-1766 | the frames from the savepoint up are merged into the one below, the older undo winning |
| TxnJournal.Journal.UndoFrames | crates/timeless-core/src/engine.rs:1819-1846 | undoing from the top down restores the oldest recorded ladder and takes the created series out of the cache |
| TxnJournal.Journal.TxnRollbackTo | crates/timeless-core/src/engine.rs:1770-1790 | what was done since the savepoint is undone and the savepoint stays open |
| TxnJournal.Journal.TxnRollback | crates/timeless-core/src/engine.rs:1712-1725 | everything since the begin is undone |
| TxnJournal.Journal.TxnCommit | crates/timeless-core/src/engine.rs:1678-1707 | the frames are dropped and everything stands |
| TxnJournal.Journal.SetRollupsTransactional | crates/timeless-core/src/engine.rs:5106-5124 | the ladder is changed and the one before is recorded once a frame |
| TxnJournal.Journal.ResolveSeries | crates/timeless-core/src/engine.rs:2109-2132 | in a transaction or not, the id returned is the catalog's for that series, found or created; a created one marks the frame on top, if there is one; the cache, full or not, still agrees with the catalog and, with room, has the series |
| TxnJournal.Journal.RemoveSeries | crates/timeless-core/src/engine.rs:6179-6226 | in a transaction or not, removed series leave the catalog, the cache is emptied and the frame on top, if there is one, is marked; nothing to remove changes nothing |
| Transactions.StepRefines | crates/timeless-ext/src/metrics_vtab.rs:1731-1847 | every step of rows and buffers is a step of a log of writes with a stack of copies of it |
| Transactions.TransactionalVisibility | crates/timeless-ext/src/metrics_vtab.rs:1731-1847 | over every run, rows and buffers together hold exactly the writes not rolled back; outside a transaction the rows alone do and nothing is buffered |
| Transactions.RollbackToRestores | crates/timeless-core/src/engine.rs:1770-1790 | rolling back to a savepoint brings back what was visible when it opened, whatever was written, flushed, nested, released or rolled back since, and empties the buffers |
| Transactions.RollbackRestores | crates/timeless-core/src/engine.rs:1712-1725 | rolling a transaction back brings back what was visible when it began, all of it in the rows |
| Scatter.Intern | crates/timeless-ext/src/metrics_vtab.rs:1186-1194 | series are numbered densely in the order they first appear |
| Scatter.CountRuns | crates/timeless-ext/src/metrics_vtab.rs:1218-1234 | the in-place tally is the number of points of each series |
| Scatter.RunStarts | crates/timeless-ext/src/metrics_vtab.rs:1235-1246 | the starts are the running totals of the counts |
| Scatter.StartTotal | crates/timeless-ext/src/metrics_vtab.rs:1235-1246 | the runs together have room for every point |
| Scatter.SlotsApart | crates/timeless-ext/src/metrics_vtab.rs:1270-1305 | no two points are written to the same slot |
| Scatter.EachSlotOnce | crates/timeless-ext/src/metrics_vtab.rs:1270-1305 | every slot is filled, by exactly one point |
| Scatter.ScatterPoints | crates/timeless-ext/src/metrics_vtab.rs:1218-1305 | the counting sort in place leaves, between each start and the next, exactly the points of that series in the order they came, and the runs cover the batch |
| BatchWrite.EachGains | crates/timeless-core/src/engine.rs:2221-2257 | points put one at a time: a series' buffer gains its points in order, and it is queued exactly when that makes it long enough |
| BatchWrite.RunsGain | crates/timeless-core/src/engine.rs:2292-2353 | runs put one at a time: a series' buffer gains its runs in order, and it is queued exactly when that makes it long enough |
| BatchWrite.BatchIsPointwise | crates/timeless-core/src/engine.rs:2292-2353 | appending the runs of a batch leaves the same buffers, sample for sample, the same series queued and the same queue up to order, as putting its points one at a time |
| BatchWrite.BatchRefines | crates/timeless-ext/src/metrics_vtab.rs:1149-1312 | a batch appended to the buffers is its points appended to the log |
| TxnSession.FirstUnknown | crates/timeless-core/src/engine.rs:1424-1431 | looking each distinct series up once finds the first point of the batch whose series is unknown, if there is one |
| TxnSession.Session.WritePoint | crates/timeless-core/src/engine.rs:2221-2257 | a point goes to the end of its series' buffer, is visible at once, counted in memory, and queues the series once it reaches the threshold |
| TxnSession.Session.WriteBatchPartitioned | crates/timeless-core/src/engine.rs:2292-2353 | starts that do not cover the samples are refused with nothing changed; otherwise what lies between each start and the next is appended to its series |
| TxnSession.Session.PutResolved | crates/timeless-ext/src/metrics_vtab.rs:1184-1309 | a batch with an unknown series is rejected before anything is written and the first such point is named; otherwise it is as if its points were put one at a time |
| TxnSession.Session.IngestResolved | crates/timeless-ext/src/metrics_vtab.rs:1149-1312 | a rejected batch leaves the transaction as it was; an accepted one adds exactly its points to what is visible, after it the queue is empty and the buffers are within the memory budget |
| TxnSession.Session.DrainPartition | crates/timeless-core/src/engine.rs:3703-3738 | the whole of a buffer is taken out if it is long enough, otherwise nothing is |
| TxnSession.Session.FlushKeys | crates/timeless-core/src/engine.rs:2531-2567 | the buffers asked for that are long enough become rows, those and no others, each one row of the whole buffer, compressed, under the table's last, with exact metadata (part of the session's invariant) and in the order of keys that rise; nothing visible changes, and none asked for stays marked as queued |
| TxnSession.Session.ClearQueued | crates/timeless-core/src/engine.rs:3740-3744 | a buffer too short to store is no longer marked |
| TxnSession.Session.FlushPending | crates/timeless-core/src/engine.rs:2523-2567 | the queue is emptied and no buffer stays marked; exactly the queued buffers with at least the minimum of points are stored; nothing visible changes |
| TxnSession.Session.FlushByMemory | crates/timeless-core/src/engine.rs:2705-2746 | within the budget nothing is stored; over it, buffers are stored until the memory counted is within it: none stored is shorter than one kept, and without some one of them it would not be |
| TxnSession.Session.FlushAll | crates/timeless-core/src/engine.rs:2754-2810 | every buffer becomes one row with exact metadata, in series order; nothing is left buffered, nothing visible changes and no memory is counted |
| TxnSession.Session.ClearBuffers | crates/timeless-core/src/engine.rs:1806-1811 | every buffer is thrown away |
| TxnSession.Session.TxnSavepoint | crates/timeless-ext/src/metrics_vtab.rs:1807-1825 | buffers are stored before the savepoint opens, so its copy holds all that is visible |
| TxnSession.Session.TxnRelease | crates/timeless-ext/src/metrics_vtab.rs:1827-1836 | the savepoints from the one named up are closed and nothing else changes |
| TxnSession.Session.TxnRollbackTo | crates/timeless-ext/src/metrics_vtab.rs:1838-1847 | the rows are those of the savepoint, the buffers are empty and the savepoint stays open |
| TxnSession.Session.TxnRollback | crates/timeless-ext/src/metrics_vtab.rs:1789-1798 | the rows are those of the begin and nothing is buffered |
| TxnSession.Session.TxnCommit | crates/timeless-ext/src/metrics_vtab.rs:1749-1787 | everything buffered is stored, nothing visible changes and nothing is left buffered |
| SelectionCache.StepKeeps | crates/timeless-core/src/engine.rs:633-674 | every atomic step of every reader and writer keeps the invariant that whatever is remembered under an old epoch will still be cleared by someone in flight |
| SelectionCache.RunKeeps | crates/timeless-core/src/engine.rs:633-674 | every interleaving of any number of threads keeps that invariant |
| SelectionCache.StartKept | crates/timeless-core/src/engine.rs:624-631 | an empty cache with idle threads meets the invariant |
| SelectionCache.QuietIsCurrent | crates/timeless-core/src/engine.rs:1440-1491 | with nothing in flight every remembered entry was worked out within the current epoch; it answers for the present catalog if and only if the catalog did not change between the reader's check and its reading of the epoch |
| SelectionCache.StaleAnswer | crates/timeless-core/src/engine.rs:1465-1487 | for any number of shards, an interleaving after which, with nothing in flight, an answer of the catalog before a commit is remembered |
| Totals.SameEnds | crates/timeless-core/src/engine.rs:1223-1256 | tables that hold the same samples have the same oldest and newest timestamp |
| Totals.TotalsMean | crates/timeless-core/src/engine.rs:1136-1153 | the totals are the number of rows, of samples, of rollup chunks and of those with one bucket |
| Totals.MovedStays | crates/timeless-core/src/engine.rs:1223-1256 | a held total is forgotten on a move exactly when nothing is left or more went than was counted |
| Totals.CompactHolds | crates/timeless-core/src/engine.rs:3265-3284 | a compaction that moves count and points by what it swapped and leaves the ends as they were has the totals of the new rows |
| Totals.ApplyHolds | crates/timeless-core/src/engine.rs:1223-1270 | every write of the engine keeps what is held true |
| Totals.HeldTotalsAgree | crates/timeless-core/src/engine.rs:1326-1342 | over every run of reads, flushes, compactions, passes, merges, deletions and rollbacks, a held total is the aggregate over the rows stored |
| Totals.Cached.ChunkTotals | crates/timeless-core/src/engine.rs:1136-1153 | a held total is returned, otherwise it is read from the rows and held |
| Totals.Cached.ChunksMoved | crates/timeless-core/src/engine.rs:1223-1256 | a held total is moved by what was added and removed, or forgotten where that would not be right |
| Totals.Cached.ChunksChanged | crates/timeless-core/src/engine.rs:1261-1270 | both totals are forgotten |
| Totals.Cached.RollupsMoved | crates/timeless-core/src/engine.rs:1326-1342 | a held rollup total is moved by what was added and removed, or forgotten |
| ReadOrder.ReadIsGather | crates/timeless-core/src/engine.rs:3969-4001 | a pruned range read is the stable sort of the in-range samples of all the series' rows: rows that do not overlap add nothing |
| ReadOrder.InOrderIs | crates/timeless-core/src/engine.rs:3969-4001 | the order the rows are read in: an earlier first timestamp first, and of equal ones the row stored first |
| ReadOrder.NarrowerRead | crates/timeless-core/src/engine.rs:3969-4001 | a narrower read is the wider one cut down, equal timestamps in the same order |
| Latest.MetaIsBest | crates/timeless-core/src/engine.rs:2916-2919 | a row whose metadata says the value at its last timestamp need not be decoded: that is its newest sample in range |
| Latest.LatestOfSorted | crates/timeless-core/src/engine.rs:4180-4258 | the newest sample is the first of the last group of equal timestamps in the sorted read |
| Latest.BestIsLatest | crates/timeless-core/src/engine.rs:4180-4258 | the best over all the chunks, ties to the earlier, is the newest of what they hold together |
| Latest.NoneCanBeat | crates/timeless-core/src/engine.rs:4180-4258 | where the next chunk's metadata cannot beat the best so far, none after it can |
| Latest.WalkNewestFirst | crates/timeless-core/src/engine.rs:4180-4258 | the newest-first walk that stops on metadata gives the newest sample of all the chunks |
| Latest.QueryLatest | crates/timeless-core/src/engine.rs:4180-4258 | the answer is the first element of the greatest-timestamp group of the stable range read, and none exactly when that read is empty |
| ReadBatch.ChunksByPosition | crates/timeless-core/src/engine.rs:1017-1041 | every position of a batch gets the chunks of its series in order, ids that are repeated included |
| ReadBatch.BatchWorkMeans | crates/timeless-core/src/engine.rs:4053-4178 | the work is the sum, over the positions and the overlapping chunks of each, of one where the newest value is kept and in range and of the chunk's samples otherwise |
| ReadBatch.QueryLatestBatch | crates/timeless-core/src/engine.rs:4053-4178 | a batch is refused if and only if there is a limit, the range is not empty and the work, one for a chunk its metadata answers for and its points otherwise, summed over every position, is over it, and that work is reported; otherwise it answers at every position what the single form answers |
| Aggregate.Summarize | crates/timeless-core/src/engine.rs:4393-4454 | metadata for chunks wholly in range and decoding for the others gives the folds of all their in-range samples |
| Aggregate.QueryAggregate | crates/timeless-core/src/engine.rs:4393-4454 | count, sum, least and greatest are those of the range read, and there is no answer exactly when it is empty |
| Aggregate.SummaryMeans | crates/timeless-core/src/engine.rs:4393-4454 | of the stored samples in the range, however listed: there is no answer exactly when there are none, and otherwise it is their number, their sum in ordinary arithmetic, their least and their greatest |
| Aggregate.QueryAggregateBatch | crates/timeless-core/src/engine.rs:4306-4391 | a batch answers at every position what the single form answers |
| Aggregate.ExactServes | crates/timeless-core/src/engine.rs:2853-2941 | rows as they are encoded meet what both fast paths ask of their metadata |
| Aggregate.ExactTableServes | crates/timeless-core/src/engine.rs:2853-2941 | so every row a session stores does |
| Windows.GridExact | crates/timeless-core/src/engine.rs:4479-4494 | the number of grid points is exactly that of the steps from the start that do not pass the stop |
| Windows.WindowValue | crates/timeless-core/src/engine.rs:4529-4574 | the fold of a window: count, sum, average, least or greatest of its samples |
| Windows.WindowWalk | crates/timeless-core/src/engine.rs:4650-4681 | the two-pointer walk over one read gives at each grid point the fold of the samples in its window, and no row where it has none |
| Windows.GridLastWalk | crates/timeless-core/src/engine.rs:4497-4524 | the one-pointer walk gives at each grid point the last sample within the lookback, and no row where there is none |
| Windows.QueryWindowAgg | crates/timeless-core/src/engine.rs:4958-4980 | the three refusals and when each is given; otherwise the rows of the naive definition over stored samples, no more than grid points |
| Windows.QueryGridLast | crates/timeless-core/src/engine.rs:4700-4714 | the three refusals and when each is given; otherwise the rows of the naive definition over stored samples, no more than grid points |
| Windows.RowIffSample | crates/timeless-core/src/engine.rs:4650-4681 | of the folds: there is a row at t exactly when t is on the grid and a stored sample lies in (t - width, t] |
| Windows.RowAnswers | crates/timeless-core/src/engine.rs:4529-4574 | every row holds, of the stored samples in its window however listed, their number, their sum, what times their number is their sum, or a least or greatest of them, NaN exactly when the source's fold is |
| Windows.RowsRise | crates/timeless-core/src/engine.rs:4650-4681 | the rows come in grid order, at most one a grid point |
| Windows.LastRowIffSample | crates/timeless-core/src/engine.rs:4497-4524 | of grid-last: the same, and the row holds the value of a newest sample within the lookback |
| Bytes.Reader.Take | crates/timeless-codec/src/lib.rs:296-311 | the next bytes are taken and the position moves past them, or there are too few and nothing is consumed |
| Bytes.Reader.U32 | crates/timeless-codec/src/lib.rs:321-323 | four bytes, least first, or nothing consumed |
| Bytes.ReadColumnFrame | crates/timeless-codec/src/lib.rs:158-170 | the loop-free reader accepts exactly the bytes that are one whole frame |
| Bytes.FrameRoundTrip | crates/timeless-codec/src/lib.rs:139-170 | a frame that was written reads back |
| Bytes.FrameCanonical | crates/timeless-codec/src/lib.rs:139-170 | bytes that read back as a frame are the one way to write it |
| Bytes.FrameLayout | crates/timeless-codec/src/lib.rs:139-170 | byte for byte: the encoding, the length with its least byte first, the payload |
| Bytes.WrapMeaning | crates/timeless-codec/src/lib.rs:452-539 | wrapping gives the one 64-bit value that differs by a multiple of 2^64 |
| Bytes.WrapInverse | crates/timeless-codec/src/lib.rs:452-539 | a wrapping addition undoes a wrapping subtraction on every pair of 64-bit values |
| ColumnCodec.I64RoundTrip | crates/timeless-codec/src/lib.rs:452-539 | every 64-bit integer column that fits its frame comes back, whichever encoding the sample chose |
| ColumnCodec.DeltasAt | crates/timeless-codec/src/lib.rs:460-470 | the first delta is the first value, every other the wrapped difference from the value before |
| ColumnCodec.SumsAt | crates/timeless-codec/src/lib.rs:528-539 | every value is the wrapped sum of the deltas so far |
| ColumnCodec.I64sMeaning | crates/timeless-codec/src/lib.rs:504-527 | value i is the eight bytes from 8 i on, modulo 2^64 |
| ColumnCodec.I64IsSmaller | crates/timeless-codec/src/lib.rs:471-501 | of up to 65536 values the smaller encoding is kept, and the second of two as small |
| ColumnCodec.EncodeI64Column | crates/timeless-codec/src/lib.rs:452-501 | the delta loop and the choice on a sample give the specified column |
| ColumnCodec.DecodeI64Column | crates/timeless-codec/src/lib.rs:504-539 | the summing loop gives the specified values or the specified refusal |
| ColumnCodec.ExpandCapped | crates/timeless-codec/src/lib.rs:1025-1059 | runs are expanded to exactly the count asked for, or refused: at an empty run, past the count, or short of it |
| ColumnCodec.CollectRuns | crates/timeless-codec/src/lib.rs:986-1022 | the loop collects the maximal runs, cut where a length would not fit 32 bits |
| ColumnCodec.RunsMaximal | crates/timeless-codec/src/lib.rs:986-1022 | neighbouring runs differ, unless the first is as long as 32 bits can say |
| ColumnCodec.ExpandAt | crates/timeless-codec/src/lib.rs:1025-1059 | run k stands for its value, from where the ones before it end, as often as it says |
| ColumnCodec.PairsAt | crates/timeless-codec/src/lib.rs:1025-1059 | run i is four bytes of length and one of value from 5 i on |
| ColumnCodec.U8IsSmaller | crates/timeless-codec/src/lib.rs:986-1022 | the smaller of runs and compressed bytes is kept, and runs of two as small |
| ColumnCodec.EncodeU8Column | crates/timeless-codec/src/lib.rs:986-1022 | runs or compressed bytes, whichever is smaller |
| ColumnCodec.DecodeU8Column | crates/timeless-codec/src/lib.rs:1025-1059 | the specified bytes or the specified refusal |
| ColumnCodec.U8RoundTrip | crates/timeless-codec/src/lib.rs:986-1059 | every byte column that fits its frame comes back |
| StringColumn.TableShape | crates/timeless-codec/src/lib.rs:691-703 | the dictionary is sorted, has each string once and exactly the strings of the column |
| StringColumn.BeforeMeans | crates/timeless-codec/src/lib.rs:691-703 | the order is that of the bytes, a prefix first |
| StringColumn.ConcatAt | crates/timeless-codec/src/lib.rs:666-690 | every string is behind four bytes that say how long it is |
| StringColumn.ParsedIsConcat | crates/timeless-codec/src/lib.rs:775-792 | what parses is exactly the text behind its lengths |
| StringColumn.CodesAt | crates/timeless-codec/src/lib.rs:793-829 | run i is four bytes of length and four of code from 8 i on |
| StringColumn.DictIff | crates/timeless-codec/src/lib.rs:648-703 | a dictionary is written if and only if at most one in eight of the first 65536 strings is a new one |
| StringColumn.DictLayout | crates/timeless-codec/src/lib.rs:704-769 | its payload is the number of strings, the length of the compressed table, the table and the codes |
| StringColumn.StrRoundTrip | crates/timeless-codec/src/lib.rs:666-865 | a string column that was encoded and framed comes back if and only if what has to be inflated is within 64 MiB |
| StringColumn.LongTextIsLost | crates/timeless-codec/src/lib.rs:772-793 | a string that can be encoded and does not come back |
| StringDecode.EncodeStrColumn | crates/timeless-codec/src/lib.rs:666-769 | the dictionary or the plain text, as the sample decides, or the specified refusal |
| StringDecode.ReadTexts | crates/timeless-codec/src/lib.rs:775-792 | exactly so many strings, all text, and nothing after them, or a refusal |
| StringDecode.ReadDictionary | crates/timeless-codec/src/lib.rs:793-829 | the table and the code runs of a payload, or a refusal |
| StringDecode.DecodeStrColumn | crates/timeless-codec/src/lib.rs:772-865 | checking all runs and then expanding them gives the specified rows or the specified refusal |
| StringDecode.CheckSelection | crates/timeless-codec/src/lib.rs:878-882 | the indices are accepted exactly when they rise strictly and are all below the row count |
| StringDecode.SelectTexts | crates/timeless-codec/src/lib.rs:886-903 | every string is read and checked, the rows kept are the selected ones |
| StringDecode.SelectRows | crates/timeless-codec/src/lib.rs:904-966 | every run is checked, the rows kept are the selected ones |
| StringDecode.DecodeStrSelected | crates/timeless-codec/src/lib.rs:873-972 | on any bytes it fails exactly where the indices are not rising and in range or decoding the whole column fails; otherwise row i of the answer is the row of the whole column at the i-th index |
| RollupPayload.EncodePayload | crates/timeless-core/src/rollup.rs:95-129 | the columns are written one after another as specified |
| RollupPayload.DecodePayload | crates/timeless-core/src/rollup.rs:131-174 | the columns are read back as specified, or the payload is refused |
| RollupPayload.PayloadRoundTrip | crates/timeless-core/src/rollup.rs:95-174 | a payload comes back bit for bit if and only if it is within the 64 MiB a read will inflate |
| RollupPayload.PayloadLayout | crates/timeless-core/src/rollup.rs:131-174 | field j of bucket i is the eight bytes at 4 + 8 n j + 8 i of what a payload of n buckets inflates to |
| RollupPayload.ManyBucketsAreLost | crates/timeless-core/src/rollup.rs:131-174 | buckets that can be encoded and do not come back |

## Left out

- Retention itself (which rows are too old, applied after a flush or a compaction): deletions appear as steps that may
  remove any rows; the cutoff arithmetic would only add easy members.
- Failures of the store, unreadable rows and indexes, allocation failure, statistics and timings.
- zstd and pco are functions assumed lossless; hash collisions of the 128-bit identity key are not modelled.
- IEEE rounding: sums are exact. Compensated sums and averages, percentiles, increases and the other window operations that
  depend on rounding are not part of this model.
- ChunkEncoding.EncodePartition: does not model the refusal of more than 2^32 - 1 points in one chunk, because no buffer
  or compaction piece comes near it.
- StringDecode.EncodeStrColumn: takes the strings alone; the refusal of a separate count that is not their number is not
  modelled.
- Rewriting that a rollback undoes is not part of the write bound, which is on the work that stands: a table compacted and
  rolled back again and again is rewritten each time.
- The end of a sweep (`CompactionFixedPoint`, `CompactionProgress`) is for a clock that stands still: a series last written
  an hour ago may be worth merging a moment later.
- Compactor.Compactor.DeleteChunks: does not model which rows retention takes, because that is arithmetic on a cutoff.
- Compactor.Compactor.CompactPartitions: does not model the retention after the loop, nor the counts it reports.
- TxnSession.Session.FlushAll: does not model the retention that follows it.
- TxnSession.Session.TxnCommit: does not model the compaction step a table takes as it commits, nor the catalog generation it
  publishes; the latter is a step of `SelectionCache`.
- TxnSession.Session.IngestResolved: begins with the points; the header and length checks on the batch's bytes are not
  modelled.
- TxnSession.Session.WriteBatchPartitioned: asks that starts which cover the samples do not fall; the code would stop on
  them, and its callers make them by adding counts.
- Windows.WindowValue: the five aggregates, in exact arithmetic; the other window operations are not part of this model.
- ReadBatch.QueryLatestBatch: does not model the saturation of the work at 2^64 - 1.
- Columns of floating-point values and of fixed-width bytes, and bitmaps.
- The order of equal timestamps after compaction, where the code sorts unstably: those claims are on multisets.
- The order in which a batch queues series for storing: the claim is that the same series are queued.
- A named batch whose series table lists one series twice: its two runs are appended one after the other. The claim on the
  order of arrival is for the resolved batch, whose series are distinct.
- The three columns of a batch and the two flat arrays are one sequence of points and one array of samples; reading the
  batch's bytes, series names and label text is not modelled.
- Rollup group counts and coverage ends are unbounded: overflow of a group count, and of the multiplication in the coverage
  end next to the extremes of 64 bits, is not modelled.
- A logarithmic bound on rollup chunks per group, which the planner does not give for arbitrary chunk sizes.
- How a sweep shares its time between rollups and merges (`rollup_bounded_for_sweep`, `rollup_merge_step`).
- Writes by other processes, except as one step that forgets everything held; the write gate between connections.
- The batch forms that share one read of payloads among queries, beyond latest and aggregate.
- SQLite's virtual-table interface, commands, schema changes and views; logs, health, capabilities and packaging.
- Savepoints are assumed to be opened through the hook and well nested, as SQLite does.
