# A model of PeerDB's change-data-capture core

PeerDB mirrors a database into a destination. This project models the parts of it that
have to be right under concurrency, crashes and odd input, and proves what they promise
for every input, every run and every reachable state.

| file | what it models |
|---|---|
| `LastChan.dfy`, `CdcProtocol.dfy` | `SyncFlow`, `pullAndSyncCore`, `startNormalize` and `normalizeLoop` as a machine whose steps are the atomic actions of the two goroutines, of source and destination, and of whatever cancels or kills the worker |
| `CdcDelivery.dfy`, `Subsequences.dfy` | delivery over all runs with failures, crashes and restarts: nothing lost, and exactly what is repeated |
| `CdcRequests.dfy` | which batches are requested, what the source is told, and rounds |
| `CdcBackpressure.dfy` | the shared watermarks and the bound on how far sync gets ahead |
| `CdcWakeup.dfy` | channels, sleeping and waking: when a wake-up is lost and what follows |
| `CdcShutdown.dfy` | what happens after `syncDone` is closed |
| `StartNormalize.dfy` | the loop of `startNormalize` against any destination |
| `PgArray.dfy`, `PgArrayInput.dfy`, `PgArrayPrinting.dfy` | the array parser, the input syntax it reads and the printer it undoes, after section 8.15.6 of the PostgreSQL documentation |
| `CdcStream.dfy`, `StreamAdapter.dfy`, `AdapterDelivery.dfy` | `CDCStream` and the Lua adapter between two of them, interleaved with producer and consumer |
| `Int64.dfy`, `Partitions.dfy` | 64-bit arithmetic and `AdjustNumPartitions` over it |
| `SchemaDeltas.dfy` | replaying schema changes into the catalog |
| `SyncGauge.dfy`, `AtomicMax.dfy` | a gauge on a concurrent map, a compare-and-swap maximum |
| `BoundSelector.dfy` | the bounded spawner of child workflows |
| `Recrypt.dfy` | re-encryption of stored configuration |

A protocol is a `datatype` of labelled steps, a predicate that says when a step can be
taken and a function that gives the state after it. `Reachable` ranges over all finite
runs. Loops and objects that one goroutine updates are methods and classes with a
specification on values. `LastChan` is a value with one function per atomic action,
because each of its methods is several such actions and they interleave.

## Where code and documentation part

- The comment in `normalizeLoop` says that checking before waiting avoids missing a
  signal. It narrows the race and does not remove it: an `Update` between `Load` and
  `Wait` is missed (`CdcWakeup.RequestWakeupLost`, `ResponseWakeupLost`), and one missed
  request or response can stop a mirror for good (`MirrorCanStopUnserved`,
  `MirrorCanStop`, `StoppedStays`), which nothing else can (`StuckExactly`,
  `StoppedOnlyByLostWakeup`).
- `SyncFlow` closes both `LastChan`s once, but an answer of the normalizer after that puts a
  response channel back (`CdcShutdown.ResponsesLeftOpen`, `ResponsesGoneExactly`). Nobody
  waits on it any more.
- The adapter's context outlives the error group of its producer and consumer, so a sync
  that fails while the adapter sends leaves its goroutine behind until the activity ends
  (`StreamAdapter.AdapterCanLeak`, `HeldUpStays`).
- Delivery is not exactly once. Pull and sync are two goroutines of one error group, and a
  pull that fails inside a transaction closes the stream before the group is cancelled.
  Sync can then finish a batch with records past the last commit while the checkpoint stays
  at that commit, and the next activity pulls them again (`CdcDelivery.RowInTwoBatches`).
  This is the only way a record is repeated (`CdcDelivery.ExactlyOnce`), and none is ever
  lost (`CdcDelivery.NothingLost`).
- The partition guarantee fails for totals that make one of the 64-bit sums overflow
  (`Partitions.GuaranteeExactly` gives the exact condition).
- A keepalive may confirm past the stored offset when source and destination are both
  Postgres (`CdcDelivery.ConfirmedWithinStored`); what it passes holds nothing published,
  so nothing is lost (`CdcDelivery.NothingLost`).
- An idle timeout of more than 292 years is not the one configured, and one of 18446744074
  seconds makes `SyncFlow` divide by zero (`CdcBackpressure.TimeoutExactly`,
  `TimeoutCanVanish`).
- With a channel buffer of zero no record ever passes the adapter
  (`StreamAdapter.BufferNeeded`).
- The parser misreads arrays if the delimiter is a brace, quote, backslash, N, U or L
  (`PgArrayPrinting.RoundTripExactly`); a white-space delimiter is fine.

## Model

| member | source | states |
|---|---|---|
| `CdcDelivery.RecordsSplit` | flow/activities/flowable_core.go:160-223 | what was published in a stretch of the log is what was published in its two parts, in order |
| `CdcDelivery.PullGetsMissing` | flow/activities/flowable_core.go:160-184 | a pull from a stale or trimmed offset gets exactly what was published after the stored one |
| `CdcDelivery.StageBatchKeeps` | flow/activities/flowable_core.go:319-336 | writing the raw records of a successful pull leaves the next batch equal to what was published up to its checkpoint |
| `CdcDelivery.StagePartKeeps` | flow/activities/flowable_core.go:228-256 | what sync gets of a pull that fails is what was published up to the checkpoint and what lies past it |
| `CdcDelivery.FinishPartKeeps` | flow/connectors/postgres/postgres_destination.go:183-214 | finishing such a batch moves the offset to the checkpoint only and adds exactly the records past it to what is repeated |
| `CdcDelivery.StageJunkKeeps` | flow/activities/flowable_core.go:319-356 | a pull or sync that fails after writing anything at all under the new batch id harms nothing finished |
| `CdcDelivery.KeepAliveKeeps` | flow/connectors/postgres/cdc.go:676-683 | advancing over a quiet stretch of the log keeps batches and offset in agreement |
| `CdcDelivery.MergeKeeps` | flow/activities/flowable_core.go:720-767 | merging on from the normalized id keeps the destination equal to the batches up to the new id |
| `CdcDelivery.StepKeeps` | flow/activities/flowable_core.go:160-433 | every step of either goroutine, source, destination, crash, restart or cancellation keeps the delivery invariant |
| `CdcDelivery.RunKeeps` | flow/activities/flowable_core.go:160-433 | so does every run |
| `CdcDelivery.NothingLost` | flow/activities/flowable_core.go:160-370 | in every reachable state batch ids are contiguous, what was published up to the stored offset is a subsequence of the batches, which hold beyond it exactly the recorded overrun, the destination holds exactly the normalized batches, and all that was confirmed to the source is in a finished batch |
| `CdcDelivery.ExactlyOnce` | flow/activities/flowable_core.go:160-370 | a run leaves batches equal to the published log up to the stored offset, and the destination a prefix of it, if and only if it never finished a batch whose pull had failed past its checkpoint |
| `CdcDelivery.RowInTwoBatches` | flow/connectors/postgres/postgres_source.go:280-285 | in every configuration some run through an error return and a new activity puts a row published once into two finished batches |
| `CdcDelivery.NormalizeStaysBehind` | flow/activities/flowable_core.go:413-415 | the normalized id never passes the finished one, and every batch a NormalizeRecords call may touch is finished |
| `CdcDelivery.AppendOnly` | flow/activities/flowable_core.go:319-370 | in every continuation each finished batch stays as it is, merged records are never taken back and no id or offset decreases |
| `CdcDelivery.ConfirmedWithinStored` | flow/activities/flowable_core.go:360-370 | UpdateReplStateLastOffset confirms the stored offset; over all runs the confirmed position stays within the stored one if and only if the offset is not kept on the destination |
| `CdcDelivery.KeepAlivePassesStored` | flow/connectors/postgres/cdc.go:969-983 | a run in which a keepalive confirms past the offset kept on the destination |
| `CdcRequests.RequestedExactly` | flow/activities/flowable_core.go:413-415 | in every run of an activity a batch is requested if and only if it was seen through to the end of its bookkeeping and holds a row, wherever in the batch |
| `CdcRequests.StoredIsConfirmed` | flow/activities/flowable_core.go:368-370 | once a batch is confirmed, all that is stored is confirmed |
| `CdcRequests.PullConfirms` | flow/connectors/postgres/cdc.go:676-687 | the flush and each keepalive of a pull confirm at least their position and nothing else |
| `CdcRequests.CancelledPullsNoMore` | flow/activities/flowable.go:420-420 | a cancelled activity begins no other pull in any run |
| `CdcRequests.EmptyRound` | flow/activities/flowable_core.go:258-287 | a round without records comes back to the state it began in |
| `CdcRequests.FailuresAreFree` | flow/connectors/clickhouse/normalize.go:443-453 | calls may stop at or fail after any later batch, and failed attempts may leave anything under their id |
| `CdcBackpressure.StepKeepsMarks` | flow/activities/flowable_core.go:413-433 | every step keeps the meaning of requests, responses and normalizingBatchID and the bound on unanswered requests |
| `CdcBackpressure.NothingUnfinishedSkipped` | flow/activities/flowable_core.go:803-827 | whenever the outer loop compares a request with normalizingBatchID, every batch up to that id is merged, although it is stored before each attempt and attempts fail |
| `CdcBackpressure.BackpressureBounds` | flow/activities/flowable_core.go:413-433 | unanswered requests never exceed the buffer; nothing is pulled after a requested batch b until the response exceeds b minus the buffer; sync of b does not wait if b - 1 was answered |
| `CdcBackpressure.CaughtUp` | flow/activities/flowable.go:388-397 | in every reachable state of any activity nothing past normalizingBatchID is merged, and between attempts that id, the response and the merged batches agree |
| `CdcBackpressure.HeldBackExactly` | flow/activities/flowable_core.go:416-422 | then sync waits if and only if a whole buffer of batches is not merged |
| `CdcBackpressure.NotHeldByMerged` | flow/activities/flowable.go:394-397 | over every run, an activity never waits for batches merged before it began |
| `CdcBackpressure.ResponsesAreTrue` | flow/activities/flowable_core.go:707-709 | a response names only finished batches, and merged ones if the destination normalizes |
| `CdcBackpressure.BufferApproximatesExactly` | flow/activities/flowable.go:402-410 | a panic if and only if the timeout is zero; otherwise at least 2, and with a positive timeout the largest number of timeouts that fits the configured hours if and only if the hours' seconds fit 64 bits or wrap around harmlessly |
| `CdcBackpressure.TimeoutExactly` | flow/activities/flowable.go:61-66 | the timeout is the configured one if and only if that is at most 9223372036 seconds |
| `CdcBackpressure.DefaultTimeout` | flow/activities/flowable.go:61-66 | an unset timeout is ten seconds, and its buffer 360 batches an hour |
| `CdcBackpressure.TimeoutCanVanish` | flow/activities/flowable.go:408-408 | a configured timeout that wraps around to zero and divides by it |
| `CdcWakeup.StepKeepsWired` | flow/shared/concurrency/lastchan.go:19-42 | every step keeps track of which channels are current, taken out or closed, and of the value each was made for |
| `CdcWakeup.NoDoubleClose` | flow/activities/flowable.go:440-462 | in no run is syncDone or any channel of the two LastChans closed twice, though two goroutines swap and close them |
| `CdcWakeup.RequestWakeupLost` | flow/activities/flowable_core.go:803-827 | the normalizer sleeps through a pending request if and only if its channel was made by an Update its Load had not seen |
| `CdcWakeup.ResponseWakeupLost` | flow/activities/flowable_core.go:415-429 | sync sleeps though it may go on if and only if its channel was made by the response that lets it |
| `CdcWakeup.StuckExactly` | flow/activities/flowable_core.go:803-862 | in a reachable state neither goroutine can take a step if and only if both sleep on open channels, uncancelled |
| `CdcWakeup.StoppedOnlyByLostWakeup` | flow/activities/flowable_core.go:803-827 | and that takes a wake-up lost by one of them as above |
| `CdcWakeup.StoppedStays` | flow/activities/flowable_core.go:422-428 | from there neither goroutine takes another step in any run without cancellation or crash |
| `CdcWakeup.RowsRequested` | flow/activities/flowable_core.go:413-422 | sync can request a whole buffer of batches before the normalizer moves, or between its Load and its Wait |
| `CdcWakeup.NormalizeOnce` | flow/activities/flowable_core.go:829-862 | from its head the normalizer can serve and answer everything requested in one attempt |
| `CdcWakeup.MirrorCanStop` | flow/activities/flowable_core.go:415-429 | in every configuration a lost response can stop the mirror for good with everything requested already answered |
| `CdcWakeup.MirrorCanStopUnserved` | flow/activities/flowable_core.go:803-827 | in every configuration a lost request can stop it for good with a full buffer of finished batches and nothing merged |
| `CdcShutdown.AtMostTwoLateStarts` | flow/activities/flowable_core.go:803-862 | in every run at most two startNormalize calls begin after syncDone is closed |
| `CdcShutdown.TwoLateStartsHappen` | flow/activities/flowable_core.go:803-862 | the bound is met in every configuration |
| `CdcShutdown.WorkBurns` | flow/activities/flowable.go:440-462 | after syncDone is closed every step of a goroutine uses up a measure that nothing refills |
| `CdcShutdown.ShutdownBounded` | flow/activities/flowable.go:457-462 | hence in every schedule their steps are bounded, and SyncFlow is over once they took that many |
| `CdcShutdown.ShutdownNeverStuck` | flow/activities/flowable.go:457-462 | until SyncFlow has returned, some goroutine can always take its next step |
| `CdcShutdown.ShutdownReturns` | flow/activities/flowable.go:440-462 | every run of a closing activity that goes on as long as some goroutine can ends with SyncFlow over |
| `CdcShutdown.ReturnsLast` | flow/activities/flowable.go:440-462 | SyncFlow returns only after the normalizer did, with syncDone and the requests closed |
| `CdcShutdown.ClosedExactlyOnce` | flow/activities/flowable.go:440-462 | in every run of an activity from its start to its return, close(syncDone) and each action of the two Close calls happen exactly once, and at most once up to any other point |
| `CdcShutdown.ResponsesGoneExactly` | flow/shared/concurrency/lastchan.go:19-31 | at the return the response channel is gone if and only if the normalizer swapped none in after Close took it out |
| `CdcShutdown.ResponsesLeftOpen` | flow/activities/flowable.go:457-462 | in every configuration some run returns with it open again |
| `StartNormalizes.Destination.NormalizeRecords` | flow/connectors/clickhouse/normalize.go:425-636 | nothing if the batch is merged already; otherwise consecutive batches from the next one, never past the requested id, possibly not all |
| `StartNormalizes.StartNormalize` | flow/activities/flowable_core.go:693-768 | terminates for every destination; merges a consecutive range, each batch once; answers ascend and are true, one for each round that worked; it fails if and only if connecting or the last round did, and succeeds only with everything up to batchID merged and answered |
| `StartNormalizes.MergeTwice` | flow/activities/flowable_core.go:720-767 | merging in two rounds is merging in one |
| `PgArray.ParsePgArrayToStringSlice` | flow/shared/postgres.go:279-375 | the loop with its jump back equals the fold of one step function, about which the next rows speak, and enters the switch at most twice per byte |
| `PgArray.SpacesAre` | flow/shared/postgres.go:297-297 | the six bytes that count as white space |
| `PgArrayInput.RunSkip` | flow/shared/postgres.go:297-300 | white space and opening braces before an item are skipped |
| `PgArrayInput.RunItem` | flow/shared/postgres.go:286-371 | an item of bare, escaped and quoted pieces in any mix is read for its text, a bare NULL and a missing item before a delimiter as the empty string |
| `PgArrayInput.RunBetween` | flow/shared/postgres.go:301-304 | everything before, between and after groups is skipped up to the next opening brace |
| `PgArrayInput.ReadsInput` | flow/shared/postgres.go:279-375 | every text of the input syntax, nested arrays included, is read for exactly the elements it writes, in order |
| `PgArrayInput.ReadsInputExactly` | flow/shared/postgres.go:279-375 | it is for all texts if and only if the delimiter is no closing brace, quote, backslash, U or L |
| `PgArray.RunSplit` | flow/shared/postgres.go:283-373 | parsing composes over concatenation of inputs |
| `PgArray.StepHolds` | flow/shared/postgres.go:285-372 | a byte is appended to what the machine holds or left out; only a completed NULL is dropped |
| `PgArray.RunHolds` | flow/shared/postgres.go:283-373 | emitted, buffered and pending bytes together are a subsequence of the bytes read |
| `PgArray.ElementsBounded` | flow/shared/postgres.go:283-373 | no more elements than delimiters and closing braces |
| `PgArray.ParseInventsNothing` | flow/shared/postgres.go:279-375 | for every input, malformed ones included, no byte is invented, repeated or moved |
| `PgArrayPrinting.RunElement` | flow/shared/postgres.go:286-371 | every printed element, NULL, N, NUL, NULLS and a quoted "NULL" included, is read back |
| `PgArrayPrinting.RunArray` | flow/shared/postgres.go:279-375 | a printed array nested to any depth is read back in row-major order |
| `PgArrayPrinting.RoundTrip` | flow/shared/postgres.go:279-375 | parsing undoes printing, NULL read as the empty string |
| `PgArrayPrinting.RoundTripExactly` | flow/shared/postgres.go:279-375 | it does so for all arrays if and only if the delimiter is none of the seven bytes the parser treats specially |
| `PgArrayPrinting.PairLost` | flow/shared/postgres.go:286-334 | an array lost with a closing brace, quote, backslash or U as delimiter |
| `PgArrayPrinting.NuLost` | flow/shared/postgres.go:343-350 | one lost with L |
| `PgArrayPrinting.NullSplit` | flow/shared/postgres.go:286-296 | one lost with N |
| `PgArrayPrinting.NestGains` | flow/shared/postgres.go:286-288 | one that gains elements with an opening brace |
| `CdcStreams.PanicsExactly` | flow/model/cdc_stream.go:60-129 | over every sequence of calls, one panics if and only if it is a second signal, a signal or record after Close, or asks for the checkpoint before Close |
| `CdcStreams.FlagsHold` | flow/model/cdc_stream.go:104-129 | the flags say whether the stream was closed, signalled and called not empty, and each channel is closed exactly when its flag is set |
| `CdcStreams.CheckpointMeans` | flow/model/cdc_stream.go:52-65 | after any calls the checkpoint is the largest id ever passed, or zero, with the text passed last |
| `CdcStreams.RowFlagMeans` | flow/model/cdc_stream.go:67-78 | the row flag is up if and only if a row was offered, sent or given up |
| `CdcStreams.BufferMeans` | flow/model/cdc_stream.go:80-102 | the channel holds what was sent and not yet received, in order, never more than its capacity |
| `CdcStreams.CdcStream.GetLastCheckpoint` | flow/model/cdc_stream.go:60-65 | callable exactly after Close; gives the largest id and the last text of the calls so far |
| `CdcStreams.CdcStream.AddRecord` | flow/model/cdc_stream.go:67-102 | callable exactly before Close; appends the record, or gives it up only when cancelled on a full channel |
| `CdcStreams.CdcStream.ReceiveRecord` | flow/model/cdc_stream.go:131-133 | the consumer gets the oldest record sent and not yet received |
| `CdcStreams.CdcStream.WaitAndCheckEmpty` | flow/model/cdc_stream.go:115-118 | after a signal or Close, false if and only if SignalAsNotEmpty was called |
| `CdcStreams.CdcStream.Close` | flow/model/cdc_stream.go:120-129 | callable at any time, also after a signal; a second call changes nothing |
| `CdcStreams.CdcStream.NeedsNormalize` | flow/model/cdc_stream.go:146-148 | true if and only if a row was offered |
| `StreamAdapter.StepKeeps` | flow/pua/stream_adapter.go:58-83 | every step of producer, adapter, consumer or outside cancellation keeps the adapter's invariant |
| `StreamAdapter.RecordsConserved` | flow/pua/stream_adapter.go:58-77 | the records read for what was consumed, what is in hand, what was dropped and what is buffered are, in this order, exactly what was sent; nothing is dropped before a failure or cancellation |
| `StreamAdapter.OutputComplete` | flow/pua/stream_adapter.go:58-83 | a closed output carries the input's checkpoint and deltas; it has fewer records only after cancellation, and its row flag holds exactly when a row passed |
| `AdapterDelivery.ScriptDelivered` | flow/pua/stream_adapter.go:64-75 | in every run the consumer gets the records as the script left them, in order, and all of them, one per record sent, when the output closes without cancellation |
| `AdapterDelivery.OfferedIsSent` | flow/model/cdc_stream.go:67-102 | what the producer offers is sent, in order, but for a last record being sent or given up |
| `AdapterDelivery.HandedOver` | flow/pua/stream_adapter.go:78-82 | a closed output carries the largest checkpoint id, the last checkpoint text and exactly the deltas the producer's steps set |
| `AdapterDelivery.ToldExactly` | flow/pua/stream_adapter.go:59-63 | the consumer is told that there are records if and only if one was sent |
| `AdapterDelivery.InputFlagExactly` | flow/model/cdc_stream.go:68-78 | the input's row flag is up if and only if the producer offered a row |
| `AdapterDelivery.EndTells` | flow/connectors/postgres/cdc.go:591-594 | a producer without records says so before it closes the stream |
| `StreamAdapter.NeverPanics` | flow/pua/stream_adapter.go:50-82 | on every path the checkpoint is read only after the input closed, no signal is given twice, nothing is closed twice or sent on a closed channel |
| `StreamAdapter.AdapterBounded` | flow/pua/stream_adapter.go:58-83 | once the input is closed the adapter's steps are bounded in every interleaving |
| `StreamAdapter.HeldUpExactly` | flow/pua/stream_adapter.go:58-83 | after the producer is done the adapter can take no step if and only if it sends, uncancelled, to a consumer that does not receive |
| `StreamAdapter.AdapterCanLeak` | flow/activities/flowable.go:485-512 | with any buffer that lets records through, a consumer that stops early can leave it so with everyone else gone |
| `StreamAdapter.HeldUpStays` | flow/pua/stream_adapter.go:71-75 | and then no run goes on without a cancellation from outside |
| `StreamAdapter.BufferNeeded` | flow/connectors/postgres/cdc.go:642-658 | a record can get through if and only if the input channel buffers at least one |
| `Partitions.DivCeilExact` | flow/shared/math.go:9-11 | rounded-up division is the ceiling if the sum fits 64 bits |
| `Partitions.DivCeilOverflows` | flow/shared/math.go:9-11 | and not positive otherwise |
| `Partitions.DivCeilTruncates` | flow/shared/math.go:9-11 | for any signs the sum is divided toward zero |
| `Partitions.RoundUpLeast` | flow/shared/math.go:42-50 | nested ceilings collapse: no two-figure number lies between the input and the result |
| `Partitions.ShrinkToTwoFigures` | flow/shared/math.go:39-50 | the loop computes that rounding without overflow |
| `Partitions.AdjustNumPartitions` | flow/shared/math.go:28-57 | for every pair of 64-bit inputs the loop, wrap-around and division by zero included, equals the specification about which the next rows speak |
| `Partitions.PanicsExactly` | flow/shared/math.go:28-57 | it divides by zero if and only if zero rows are desired, or -1 with a total from -1998 to -999 |
| `Partitions.EnoughPartitions` | flow/shared/math.go:25-27 | after an adjustment at least 901 partitions from 9000 rows on, at least 501 below |
| `Partitions.RoundUpIsLeastTwoFigures` | flow/shared/math.go:39-50 | rows per partition is the least number with at most two significant figures that is at least the total over 1000, rounded up |
| `Partitions.GuaranteeExactly` | flow/shared/math.go:25-57 | at most 1000 partitions, the lower bounds, all rows covered with no partition empty, never fewer rows than requested, the least such figure: all of it if and only if no 64-bit sum overflows |
| `Partitions.GuaranteeFails` | flow/shared/math.go:28-57 | where one overflows, the count is not positive or the rows are negative |
| `Partitions.EmptyTable` | flow/shared/math.go:31-37 | without rows nothing is adjusted and there is no partition |
| `SchemaDeltas.AddColumns` | flow/activities/flowable_core.go:94-108 | the loop appends new columns by first occurrence of their name |
| `SchemaDeltas.ApplyDeltas` | flow/activities/flowable_core.go:83-113 | the copy equals every schema extended by the deltas for its table |
| `SchemaDeltas.Catalog.ReadModifyWrite` | flow/internal/postgres.go:112-187 | the catalog becomes exactly that, or on any failure stays as it was |
| `SchemaDeltas.WriteBack` | flow/internal/postgres.go:147-173 | the updates, in any order, replace the modified tables and no others |
| `SchemaDeltas.MentionedSuffice` | flow/internal/postgres.go:285-328 | loading only the mentioned tables gives the same catalog as loading all |
| `SchemaDeltas.ExtendNames` | flow/activities/flowable_core.go:99-108 | exactly the added names become known |
| `SchemaDeltas.ColumnsInOrder` | flow/activities/flowable_core.go:93-108 | a table's columns stay in place, followed by the first new column of each name in the order its deltas list them |
| `SchemaDeltas.OnlyMentioned` | flow/activities/flowable_core.go:93-113 | no table appears or disappears and unmentioned ones are untouched |
| `SchemaDeltas.KeepsUnique` | flow/activities/flowable_core.go:99-108 | distinct column names stay distinct |
| `SchemaDeltas.Composes` | flow/activities/flowable_core.go:93-112 | two calls on parts of a list of deltas are one call on the whole |
| `SchemaDeltas.NoOpExactly` | flow/activities/flowable_core.go:99-111 | nothing changes if and only if every delta's table is uncatalogued or knows all its names |
| `SchemaDeltas.ReplayIsNoOp` | flow/activities/flowable_core.go:83-113 | replaying any already applied deltas, in any order and number, changes nothing |
| `SyncGauge.StepKeeps` | flow/otel_metrics/observables.go:29-44 | every atomic action of Record and Callback keeps the gauge's invariant |
| `SyncGauge.Lossless` | flow/otel_metrics/observables.go:29-44 | the latest reading of each attribute set is stored or was observed; others left only by being superseded or observed; nothing unrecorded is observed |
| `SyncGauge.ReadingsAreCalls` | flow/otel_metrics/observables.go:41-44 | over every run the readings are exactly the Record calls with their attributes and values, the latest is the last call, and nothing else is observed |
| `SyncGauge.VisitedOnce` | flow/otel_metrics/observables.go:30-37 | within one collection no attribute set is visited twice |
| `SyncGauge.AtMostOnceExactly` | flow/otel_metrics/observables.go:29-39 | each collector observes a reading at most once; over all runs no reading is observed twice if and only if there is at most one collector |
| `SyncGauge.TwoCollectorsObserveTwice` | flow/otel_metrics/observables.go:30-36 | a run in which two collectors observe the same reading |
| `AtomicMax.RunKeeps` | flow/shared/atomic.go:6-11 | with any number of callers the cell never decreases |
| `AtomicMax.EndsAsMaximum` | flow/shared/atomic.go:6-11 | it is at least v once a call with v returned and ends as the maximum of its first value and all arguments |
| `AtomicMax.CallTerminates` | flow/shared/atomic.go:7-10 | however others interfere, each call takes a bounded number of its own actions |
| `BoundSelectors.NeverTooMany` | flow/shared/bound_selector.go:25-30 | at no point do more children run than the limit |
| `BoundSelectors.FailureEndsHistory` | flow/shared/bound_selector.go:22-40 | after the first observed failure nothing starts or is observed, so it is never replaced |
| `BoundSelectors.StartedAccounted` | flow/shared/bound_selector.go:46-52 | without a failure every started child is running or succeeded |
| `BoundSelectors.FailureLeavesOne` | flow/shared/bound_selector.go:36-40 | after one exactly one started child is neither |
| `BoundSelectors.BoundSelector.constructor` | flow/shared/bound_selector.go:14-19 | a new selector runs nothing and has seen no failure |
| `BoundSelectors.BoundSelector.WaitOne` | flow/shared/bound_selector.go:54-59 | exactly one running child is observed, if there is one |
| `BoundSelectors.BoundSelector.SpawnChild` | flow/shared/bound_selector.go:21-44 | below the limit starts this child and observes none, at the limit observes exactly one first; a known failure is returned and nothing started |
| `BoundSelectors.BoundSelector.Wait` | flow/shared/bound_selector.go:46-52 | terminates; no error if and only if every child started so far finished without a failure, otherwise the first failure |
| `BoundSelectors.SpawnClones` | flow/workflows/snapshot_flow.go:270-284 | the loop starts one child per table, in order, up to the first known failure |
| `BoundSelectors.CloneTables` | flow/workflows/snapshot_flow.go:259-292 | no error if and only if one child per table was started, in order and within the limit, and all succeeded |
| `Recrypt.GetFinds` | flow/shared/crypto.go:43-55 | a key is found if and only if the id is empty or listed, and is the first listed one with that id |
| `Recrypt.DecryptUndoesEncrypt` | flow/shared/crypto.go:60-121 | whatever Encrypt returns, Decrypt with that key takes back |
| `Recrypt.EncryptMeans` | flow/shared/crypto.go:95-121 | encryption fails exactly without 32 key bytes or a nonce, and seals behind the nonce it was given |
| `Recrypt.DecryptMeans` | flow/shared/crypto.go:60-92 | decryption fails exactly on a bad key, a short text or a seal that does not open |
| `Recrypt.CollectTodo` | flow/cmd/api.go:89-123 | in any row order the loop collects exactly the rows that can be renewed, with their new contents |
| `Recrypt.WriteTodo` | flow/cmd/api.go:129-135 | it succeeds if and only if no collected row's update fails, and then exactly those rows are replaced |
| `Recrypt.Database.RecryptDatabase` | flow/cmd/api.go:54-141 | it commits if and only if the key is listed and no statement it needs fails; then the table is renewed as a whole, otherwise left alone, and in every outcome each row decrypts under its recorded key id to what it did before |
| `Recrypt.RowKeepsPlaintext` | flow/cmd/api.go:99-122 | a row is renewed to the same plaintext or untouched |
| `Recrypt.OldKeyKeptExactly` | flow/cmd/api.go:93-123 | after a commit a row keeps an old key id if and only if reading it, finding its key, decrypting or encrypting failed |
| `Recrypt.TableKeepsPlaintexts` | flow/cmd/api.go:89-140 | a commit changes the plaintext of no row |

## Left out

- ExactlyOnce: connectors enter by contract. Writing raw records under a batch id replaces what an earlier attempt wrote under it, offset and batch id are stored in one step, and a batch is merged together with the step of the normalize id; a destination that repeats an idempotent merge after a crash between the two is counted as merging once.
- ExactlyOnce: one worker at a time; workers that keep running after their activity was restarted elsewhere are not modelled.
- ConfirmedWithinStored: only the numeric offset is modelled; the checkpoint text (GTID set, resume token) appears only in the stream hand-over.
- IdleTimeout: the step through floating point in `Duration.Seconds` is exact division here; the two can differ by one second for durations that wrapped around.
- NormalizeRecords: the Postgres destination's answer for a mirror without metadata is left out; there is metadata once a batch is finished.
- AddRecord: one call is atomic here; blocking, cancellation and interleaving are in `StreamAdapter`, where the send is its own step.
- OutputComplete: of what a script may do to a record only whether it stays a row is modelled; visibility of the adapter's deltas before the output closes is not.
- ReadModifyWrite: concurrent transactions on the same tables are left out.
- RecryptDatabase: assumes that opening undoes sealing; a commit that reports an error although it was applied and reuse of the scan buffer between rows are left out.
- `CDCStream` first-row timestamps, `AddSchemaDelta`, `BigIntDivCeil`, heartbeats, metrics, logging, retry intervals and sleeps: no effect on the properties, or easy.
- Connector implementations, SQL generation, Temporal, gRPC, telemetry export, error classification, maintenance, API handlers, type conversions, user interface: external or wide without depth.
