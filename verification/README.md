# RustMQ, modelled and proved in Dafny

A Dafny 4.11 model of the parts of RustMQ in which several activities meet over shared state:
produce and fetch calls on a broker, the movement of records from memory to object storage, the
admin API's rate limiter and health cache, leader reservations, the write-ahead-log scanners,
high-watermark selection, wire conversion, the broker's life cycle and the build script's file
search. Nothing here was executed; everything is checked by `dafny verify dfyconfig.toml`.

Concurrency is modelled by steps. `BrokerSteps`, `RateLimitRuns`, `TieredStore`, `HealthTracker`,
`Replication` and `Reservation` each define the atomic steps of their protocol (one access under a
lock, one durable write, one reading of the clock), and the theorems quantify over every sequence
of steps.
Code that changes fields in place is a class (`BrokerCore.MessageBrokerCore`,
`Consumer.MessageConsumer`, `RateLimiter.RateLimiterManager`, `HealthTracker.BrokerHealthTracker`,
`PartitionIndex.PartitionIndex`, `Lifecycle.Broker`, ...), each method proved against a function
of the old state; those functions are the ones the step machines and the theorems use.

## Results

- **Watermarks.** In every interleaving a watermark covers only offsets that were appended. In the
  course of a run it never covers a missing record if and only if no append fails below it and no
  call commits over an offset that was torn away and not written again; both do happen when calls on
  a partition overlap. What it covers was acknowledged by n followers if and only if no call commits
  with fewer acknowledgments for one of its records, and nothing in a call prevents that: the answer
  of the replication manager is not looked at. Runs without overlap refine an append-only sequence.
- **Tiering.** `TieredStore` lets appends, overlapping or repeated, cold reads and their cache,
  tiering passes, compactions and crashes interleave, and lets each of them fail halfway.
  `TieredExact` says for every such run exactly when every read is right to its last record and
  would be after a crash: when no step does one of a few harms that can be read off the state
  before it. The code does all of them. An upload above the multipart threshold writes parts that no
  read looks for, and the segment or the sources of the merge are then deleted. A failed append
  may stay in the write-ahead log and come back. A cold read prefers what the cache has from an
  older object. Replication appends every record twice, and a call after a failed one writes over
  what that one stored. Each has a run in `TieredRuns`, and `TieredLoss` has closed conditions: on
  the size and the entries of a new segment or a merge, on what is live, cached, in memory and in
  the log when a segment is tiered again, and on what a roll-back leaves behind. As long as records
  are appended one by one at the next offset, uploads stay within the threshold, nothing fails
  halfway, and compactions leave alone what is still in the write-ahead log, nothing is ever lost.
- **Rate limits.** In any window of length W of any interleaving at most burst + rate * W requests
  pass globally and per category, and per address burst * (floor(W / max age) + 2) + rate * W.
  Validation lets a maximum age of zero pass when cleanup is disabled, although requests trigger
  cleanups all the same. The cleanup interval then takes the place of the age, with one burst more
  if a cleanup is under way when the window opens. If both are zero and cleanups evict at all, any
  number of requests of one address pass its check at one instant, whatever the other limits are;
  under every other accepted configuration at most three bursts do.
- **Health cache.** Cleaning up stale entries can never be observed, exactly as long as the two
  clock readings of a check are at most twice the timeout apart.
- **Polling.** `poll` advances the position of the i-th partition visited by the number of records
  fetched from all partitions so far, so it is right exactly when the earlier ones gave nothing.
  What a consumer of one partition is handed out is a run of the log exactly as long as nothing it
  was handed out is rolled back or overwritten; fetches pass the watermark, so this can happen even
  without overlap.
- **Replication watermark.** Recalculations only share a read lock, so a slow one can lower it; it
  never falls exactly when none stores a candidate that was overtaken since its load.

Where documentation and code differ the model follows the code: fetches are not bounded by the
high watermark (`SerialRuns.FetchPassesWatermark`), `send_batch` and `handle_produce` keep what
they appended before a failure, the parts of a large upload are never put together although a
comment leaves that to the storage (`TieredRuns.LargeSegmentLost`), and the QUIC server is reported
as running after a stop.

## Files

| file | contents |
|---|---|
| `Types`, `MapSums` | shared values, sums over maps |
| `PartitionLog`, `BrokerSteps`, `SerialRuns`, `WatermarkRuns` | a partition as readers see it; produce, fetch and partition changes in all interleavings and in runs without overlap; what watermarks vouch for |
| `BrokerCore`, `UninterruptedCalls`, `Producer`, `Consumer`, `ConsumerRuns` | the broker's methods and their place in the step machine; a consumer beside a running broker |
| `ColdIndex`, `TieredStore`, `TieredExact`, `TieredSafety`, `TieredLoss`, `TieredRuns` | appends, cold reads and their cache, tiering, compaction, crash and recovery: the steps, exactly when reads stay right, when nothing is lost, closed conditions, runs that go wrong |
| `PartitionIndex`, `CompactionPlan`, `Reservation` | the offset index, the compaction planner, leader fencing |
| `WalFrames`, `HighWatermark`, `Replication` | log scanning, k-th smallest selection, acknowledgments and overlapping recalculations |
| `RateLimitConfig`, `TokenBucket`, `RateLimiter`, `RateLimitRuns`, `RateLimitCalls`, `RateLimitEvictions`, `RateLimitVoid` | the rate limiter |
| `HealthTracker`, `Lifecycle`, `MetricsExport`, `WireConversion`, `ProtoDiscovery` | the remaining components |

## Model

| member | source | states |
|---|---|---|
| `PartitionLog.InsertRunContents` | src/storage/partition_index.rs:86-103 | Consecutive inserts put exactly these records at exactly these offsets and change no other offset. |
| `PartitionLog.InsertRunConcat` | src/storage/partition_index.rs:86-103 | Inserting two adjacent runs one after the other is inserting their concatenation. |
| `PartitionLog.ReinsertIsIdle` | src/replication/manager.rs:148-153 | The second append that replication makes of a record already stored changes nothing that a reader of memory sees. |
| `PartitionLog.ReadIsRun` | src/storage/partition_store.rs:285-346 | A read yields the log's own records from the asked offset without a gap, yields one exactly when that offset holds one, and, short of the length at which the store ends it, ends only at a gap. |
| `BrokerSteps.WatermarkCoversAppended` | src/broker/core.rs:246-282 | In every interleaving of produce calls, failures, removals and additions, every offset between the highest watermark ever set by an addition and the current watermark was appended, and, if all calls replicate, the replication manager has answered for it. |
| `BrokerSteps.SolidIffNotStruck` | src/storage/partition_store.rs:221-235 | One step keeps the store free of holes under watermarks and under what calls in flight will commit, if and only if it is not a failing append at an offset in use. |
| `BrokerSteps.HoleFreeIffNeverStruck` | src/broker/core.rs:246-282 | A whole run keeps every watermark, and everything a call in flight counts on, free of missing records if and only if none of its failing appends strikes an offset that a watermark covers or another call counts on. |
| `WatermarkRuns.NoHoleIffNotOpened` | src/storage/partition_store.rs:221-235 | One step leaves no record missing under a watermark if and only if it is neither an append failing below the watermark nor a commit over an offset that was torn away and not written again. |
| `WatermarkRuns.NoHoleIffNeverOpens` | src/broker/core.rs:246-282 | In every interleaving, no watermark ever covers a missing record if and only if no step of the run is one of these two. |
| `WatermarkRuns.StruckAndHealed` | src/broker/core.rs:266-282 | A run in which a failing append strikes what another call counts on and no hole follows, because that call's replication writes the record again before the commit. |
| `WatermarkRuns.CoveredIsConfirmedIff` | src/replication/manager.rs:188-285 | In every interleaving and for every n, everything the watermarks cover was acknowledged by n followers if and only if no call commits while one of its own records has fewer acknowledgments. |
| `WatermarkRuns.AcknowledgedAlone` | src/broker/core.rs:266-282 | A run in which a call that asks for a majority succeeds and the watermark covers its record, although no follower has acknowledged it. |
| `BrokerSteps.CounterConserved` | src/broker/core.rs:284-306 | In every interleaving the message counter equals the records of the successful appends plus the records fetched. |
| `BrokerSteps.CounterNeverFalls` | src/broker/core.rs:175-178 | No run lowers the message counter. |
| `SerialRuns.SerialStep` | src/broker/core.rs:230-282 | With calls on one partition excluded from overlapping, every step keeps acknowledged batches stored, offset ranges increasing and each partition equal to the sequence appended since it was added. |
| `SerialRuns.SerialRunRefinesLog` | src/broker/core.rs:230-307 | In every run without overlap on a partition, failures included, partitions refine append-only logs and acknowledged ranges are disjoint and increasing. |
| `SerialRuns.FetchReturnsProduced` | src/broker/core.rs:293-307 | A fetch at an acknowledged offset begins with exactly the record produced there. |
| `SerialRuns.SerialRunHasNoHole` | src/broker/core.rs:246-282 | Such runs never leave a hole under a watermark. |
| `SerialRuns.OverlappingCallsCollide` | src/broker/core.rs:246-263 | Any two calls that begin without the watermark being written in between are given the same base offset. |
| `SerialRuns.OverlapReusesOffsets` | src/broker/core.rs:246-282 | A run in which two overlapping calls both succeed, offset 0 is handed out twice, one record is overwritten and the watermark falls from 2 to 1. |
| `SerialRuns.OverlapLeavesHole` | src/storage/partition_store.rs:229-234 | A run in which one call's rollback removes the record another call was acknowledged for. |
| `SerialRuns.FetchPassesWatermark` | src/broker/core.rs:293-307 | A reachable state in which a fetch serves a record no call has been acknowledged for. |
| `BrokerCore.AssignOffsets` | src/broker/core.rs:246-259 | The loop hands out consecutive offsets from the watermark that was read. |
| `BrokerCore.MessageBrokerCore.AddPartition` | src/broker/core.rs:154-166 | The watermark of an added partition is at or above the given one and above every offset stored, and is one of the two; no other partition changes. |
| `BrokerCore.MessageBrokerCore.RemovePartition` | src/broker/core.rs:168-173 | From then on every produce call on the partition is refused and changes nothing, calls on other partitions are answered as before, and what is stored stays. |
| `BrokerCore.MessageBrokerCore.StoreAppend` | src/storage/partition_store.rs:206-236 | The record is visible before it is durable and is rolled back, without rewinding the next offset, when durability fails. |
| `BrokerCore.MessageBrokerCore.AppendAll` | src/broker/core.rs:261-264 | All records land at consecutive offsets, or the failing one is rolled back and those before it stay. |
| `BrokerCore.MessageBrokerCore.ReplicateAll` | src/broker/core.rs:266-276 | The replication loop changes nothing a reader sees and fails exactly when one of the local appends it repeats fails; acknowledgments of followers play no part. |
| `BrokerCore.MessageBrokerCore.AppendRecords` | src/broker/core.rs:230-289 | New state and answer are those of `AppendOutcome` for every partition, batch, acknowledgment level and failing write. |
| `BrokerCore.MessageBrokerCore.FetchRecords` | src/broker/core.rs:293-307 | The answer is a gap-free run of the partition from the asked offset, not empty if that offset holds a record, and the counter rises by its length; a read error changes nothing. |
| `UninterruptedCalls.UninterruptedCall` | src/broker/core.rs:230-289 | Running the steps of one call without interruption, from any state and with any number of acknowledgments from followers, has exactly the effect of `AppendOutcome`. |
| `Producer.GroupRecords` | src/broker/core.rs:361-386 | Grouping keeps every partition's records in their original order and the acknowledgment level of its first record. |
| `Producer.SendBatch` | src/broker/core.rs:361-404 | For any order of the groups: success gives one result per record and every partition its records in order at consecutive offsets, put to the replication manager as its first record asks; failure leaves earlier groups appended, the failing one as its outcome says, and the rest untouched. |
| `Producer.OneMoreSend` | src/broker/core.rs:335-359 | Sending one more record after a batch leaves what sending the longer batch leaves. |
| `Producer.HandleProduce` | src/broker/broker.rs:677-709 | Records sent one by one leave the broker as one batch would and answer its first offset; after a failure the ones before it stay. |
| `Consumer.MessageConsumer.Subscribe` | src/broker/core.rs:445-455 | Partition 0 of each topic is set to offset 0, and no other position changes. |
| `Consumer.SeekDirectsPoll` | src/broker/core.rs:494-497 | After a seek, a poll hands out of that partition exactly what the store holds from the sought offset on, and nothing exactly when that offset holds no record. |
| `Consumer.MessageConsumer.CommitOffsets` | src/broker/core.rs:487-492 | Exactly the given positions are overwritten. |
| `Consumer.MessageConsumer.Poll` | src/broker/core.rs:457-485 | Records and positions are those of visiting the tracked partitions in some order; an error leaves the positions moved so far. |
| `Consumer.PollContents` | src/broker/core.rs:463-480 | What a poll hands out of each partition are that partition's records from the position it had, in order and under their own offsets. |
| `Consumer.PollLaw` | src/broker/core.rs:463-480 | The i-th partition visited advances by the sum of the records fetched from the first i + 1. |
| `Consumer.AdvancesAsIntendedIff` | src/broker/core.rs:477-477 | A position advances by what its own partition returned if and only if the partitions before it returned nothing. |
| `ConsumerRuns.SinglePartitionSession` | src/broker/core.rs:457-485 | However polls and the broker's steps interleave, what a consumer of one partition was handed out is a gap-free, duplicate-free run of the log with correct offsets if and only if no record handed out was since rolled back or overwritten by another without being written there again; its position is right behind in any case. |
| `ConsumerRuns.AlwaysRunIffNeverSpoiled` | src/broker/core.rs:457-485 | It is such a run after every event if and only if no event rolls back or overwrites a record handed out. |
| `ConsumerRuns.CalmSession` | src/broker/core.rs:230-289 | That holds in every run in which operations on a partition do not overlap and no append to this one fails. |
| `ConsumerRuns.RolledBackRecordStays` | src/storage/partition_store.rs:229-234 | A run without overlap in which a consumer keeps a record that was never acknowledged and never sees the acknowledged one at its offset. |
| `Consumer.EmptyPollMeansCaughtUp` | src/broker/core.rs:457-485 | A poll of one partition is empty exactly when its position holds no record. |
| `ColdIndex.FoldManifest` | src/storage/cold_index.rs:227-273 | The loop computes the live ranges and superseded keys of a manifest. |
| `ColdIndex.ReadObject` | src/storage/partition_store.rs:315-324 | The loop returns the entries of an object from the offset on in the object's order, as many as the byte budget allows and at least one. |
| `ColdIndex.ReadAfterInsert` | src/storage/partition_index.rs:271-280 | Inserting a range changes what reads find exactly at the offsets between its start and the next range, and there to what the cache or else its object yields. |
| `ColdIndex.ReadAfterReplace` | src/storage/partition_index.rs:196-223 | Replacing the ranges of a span changes what reads find exactly from its start to the next range behind it. |
| `ColdIndex.ReadsLog` | src/storage/partition_index.rs:271-280 | With disjoint ranges whose objects hold their slices and a cache of runs of the log, a read at a covered offset yields a run of the log, without the cache up to the end of the range, and a read elsewhere yields nothing. |
| `ColdIndex.InsertKeepsCover` | src/storage/partition_index.rs:123-161 | Adding a range that matches or lies beside the others adds exactly its own offsets. |
| `ColdIndex.ReplaceKeepsCover` | src/storage/partition_index.rs:196-223 | Replacing the ranges within a span by one range adds exactly the span. |
| `ColdIndex.SourcesFill` | src/storage/compaction.rs:77-112 | Contiguous live sources leave no room for another range that reaches into their span. |
| `TieredStore.HotOfContents` | src/storage/partition_store.rs:182-188 | Recovery brings back into memory exactly the offsets still in the log, each with the record appended there last. |
| `TieredExact.ServesIff` | src/storage/partition_store.rs:285-346 | Reads are right at every offset, to their last record, if and only if each offset has a current record in memory, or else its range answers, from the cache or from its object, with a run of the log, and with nothing where the log has no record. |
| `TieredExact.SurvivesIff` | src/storage/partition_store.rs:148-202 | Reads are right after a crash, whichever superseded objects are collected, if and only if at each offset the latest entry of the write-ahead log, failed appends included, is the log's, or there is none and the manifest's ranges answer from objects that cannot be collected, and with nothing where the log has no record. |
| `TieredExact.StepSafeIff` | src/storage/partition_store.rs:206-525 | From a state in which reads are right and would be after a crash, a step, be it of an append, a cold read, a tiering pass, a compaction, a torn manifest write or a crash, leads to such a state if and only if it does none of the listed harms to any offset, each read off the state before the step. |
| `TieredExact.AlwaysRightIffHarmless` | src/storage/partition_store.rs:206-525 | For every run of overlapping, repeated and failing appends, cached reads, tiering passes, uploads in parts or broken off, compactions, deletions and crashes: reads are right in every state, and would be after a crash in every state, if and only if no step of the run does such a harm. |
| `TieredSafety.InvFlip` | src/storage/partition_index.rs:123-161 | Evicting a tiered range from memory, once its object is stored, keeps every offset readable and every durable range registered. |
| `TieredSafety.InvReclaim` | src/storage/partition_store.rs:513-524 | Deleting a log segment after its range was committed loses nothing, in memory or after a crash. |
| `TieredSafety.DownloadedSlice` | src/storage/compaction.rs:77-105 | What was downloaded of the sources of a compaction, one after the other, is the slice of the log up to the end of the last one, and the next one must begin there. |
| `TieredSafety.InvDeleteSource` | src/storage/compaction.rs:145-150 | Deleting a source's object, once the merged object is stored, touches no live range and no segment being tiered. |
| `TieredSafety.InvCrash` | src/storage/partition_store.rs:148-202 | A crash at any point, with any of the superseded objects collected, recovers an index that serves the durable log, if every entry of the write-ahead log is the log's. |
| `TieredSafety.NothingIsLost` | src/storage/partition_store.rs:400-525 | In every interleaving in which records are appended one by one at the next offset, failed ones leave no frame behind, uploads stay within the multipart threshold and do not break live objects, the manifest is never torn, and compactions only merge ranges that have left the write-ahead log, every read is right in every state and would be after a crash. |
| `TieredSafety.ServesView` | src/storage/partition_store.rs:285-346 | In a store whose reads are right, every read, cached or not and cut off after any of its records, is a read of the map of offsets to records that the broker model uses, and it is empty exactly when that one is. |
| `TieredSafety.ViewIsCurrent` | src/storage/partition_store.rs:206-235 | Every record of that map is the log's, or in memory one that is being appended. |
| `TieredLoss.FreshServesIff` | src/storage/object_storage.rs:463-497 | Tiering a segment whose range is new and not cached keeps reads right if and only if its object is within the multipart threshold and its entries, from the first one on, are the log's, each once and in order, or it is above and nothing is due in its range. |
| `TieredLoss.FreshSurvivesIff` | src/storage/partition_store.rs:477-524 | Once the segment of a new range is reclaimed, a crash loses nothing if and only if its object is within the threshold, its entries from the first one on are the log's, each once and in order, and what it has before its range is served without it. |
| `TieredLoss.PassedSteps` | src/storage/partition_store.rs:477-524 | The states that the two conditions above speak of are those to which the upload, the registration and the flip of the segment lead, and then its reclaiming. |
| `TieredLoss.MergeServesIff` | src/storage/compaction.rs:114-150 | Once a merge is recorded and its sources are deleted, reads are right if and only if its object is within the threshold or memory has everything it spans. |
| `TieredLoss.MergeSurvivesIff` | src/storage/compaction.rs:114-150 | A crash then loses nothing if and only if the merge's object is within the threshold and was not superseded before, or the write-ahead log has everything it spans. |
| `TieredLoss.MergeSteps` | src/storage/compaction.rs:114-150 | The state that the two conditions above speak of is the one to which the upload, the record, the replacement and the deletion of all sources lead. |
| `TieredLoss.RetierServesIff` | src/storage/partition_index.rs:123-161 | After a segment inside a live range was tiered again, and any objects were deleted that reads could do without before, such as the pending sources, reads are right if and only if the rest of the live range is in memory, what the cache has of the segment's offsets is current, and for the others the segment's own object was not among the deleted ones. |
| `TieredLoss.ReregisterSurvivesIff` | src/storage/partition_store.rs:505-511 | Once the range of such a segment is in the manifest, a crash loses nothing if and only if the rest of the live range is in the write-ahead log. |
| `TieredLoss.RetierSurvivesIff` | src/storage/partition_store.rs:505-525 | Once the segment is reclaimed, a crash with any superseded objects collected loses nothing if and only if, besides, each of its offsets is current elsewhere in the log, or absent there while the segment's object is not superseded. |
| `TieredLoss.FinishedSteps` | src/storage/partition_store.rs:505-524 | The state that the conditions on tiering again speak of is the one to which the registration, the flip and the reclaiming of the segment lead. |
| `TieredLoss.RollbackServesIff` | src/storage/partition_store.rs:221-235 | The roll-back of a failed append leaves reads right if and only if the log has no record at its offset, or a range or the cache still answers with it. |
| `TieredLoss.KeptSurvivesIff` | src/storage/wal/segmented.rs:403-454 | A failed append whose frame stays in the write-ahead log leaves a crash without harm if and only if it repeats the record that the log has. |
| `TieredRuns.ReplicatedBatchRepeats` | src/broker/core.rs:261-276 | A run in which a batch that replication appended again in the same segment is handed out twice by one read, under offsets that are not its own. |
| `TieredRuns.ReplicatedRecordHides` | src/broker/core.rs:261-276 | A run in which the second append of a record lands in the next segment, whose shorter range then hides another durable record, before and after a crash. |
| `TieredRuns.StaleRecordServed` | src/broker/core.rs:246-264 | A run in which a record of a failed call, tiered and later overwritten by an acknowledged one, is still handed out by reads that begin before it. |
| `TieredRuns.RestOfMergeHidden` | src/storage/partition_store.rs:513-520 | A run in which a segment left in place is tiered again after its range was merged and hides the rest of the merged range, before and after a crash. |
| `TieredRuns.SourceReliedOn` | src/storage/compaction.rs:145-150 | A run in which such a segment makes reads rely on an object that is then deleted as a source of the merge; the record is lost, before and after a crash. |
| `TieredRuns.LargeSegmentLost` | src/storage/object_storage.rs:402-459 | For every threshold a run in which a segment above it is uploaded in parts, registered and reclaimed, and its record is lost, before and after a crash. |
| `TieredRuns.LargeMergeLost` | src/storage/compaction.rs:114-150 | For every threshold that holds one record a run in which two objects of exactly that size are merged above it and deleted, and both records are lost, before and after a crash. |
| `TieredRuns.CachedRecordServed` | src/storage/partition_store.rs:299-328 | A run in which a record that was tiered and read is overwritten by an acknowledged one, tiered under the same key, and still handed out from the cache. |
| `TieredRuns.FailedRecordServed` | src/storage/wal/segmented.rs:403-454 | A run in which the frame of a failed append is tiered with the record that took its place, and one read hands out both. |
| `TieredRuns.FailedRecordReturns` | src/storage/wal/segmented.rs:403-454 | A run in which a crash brings back a record whose append failed, although the log has none. |
| `TieredRuns.TornManifestLoses` | src/storage/cold_index.rs:138-219 | A run in which a segment is registered behind a torn frame of the manifest and reclaimed; recovery cuts the registration off, and the record is lost. |
| `TieredRuns.BrokenUploadHides` | src/storage/object_storage.rs:87-98 | A run in which a segment left in place is uploaded again over its live object, the upload breaks off, and its record cannot be read. |
| `TieredRuns.OverlapRollsBack` | src/storage/partition_store.rs:221-235 | A run in which two calls append at one offset, the second one fails, and its roll-back takes the first one's durable record out of memory. |
| `PartitionIndex.PartitionIndex.InsertHot` | src/storage/partition_index.rs:86-103 | The record and its size replace what was at the offset, the next offset never falls, and the byte count stays the sum over all partitions. |
| `PartitionIndex.PartitionIndex.RemoveHot` | src/storage/partition_index.rs:109-116 | Exactly this entry goes; the byte count stays the sum and cannot underflow. |
| `PartitionIndex.PartitionIndex.FlipToCold` | src/storage/partition_index.rs:123-161 | The range leaves memory, its object takes its place, and the bytes freed are those of the evicted records. |
| `PartitionIndex.PartitionIndex.InsertCold` | src/storage/partition_index.rs:166-186 | A recovered range is added without touching memory. |
| `PartitionIndex.PartitionIndex.ReplaceCold` | src/storage/partition_index.rs:196-223 | The ranges that begin in the span are replaced by the merged one. |
| `PartitionIndex.PartitionIndex.Plan` | src/storage/partition_index.rs:245-283 | A read is planned from memory if the offset is there, else from the range with the greatest start that holds it, else it is empty; the early exit at the next offset never hides a record. |
| `PartitionIndex.RunIsDense` | src/storage/partition_index.rs:254-269 | The run served from memory is gap-free from the asked offset. |
| `PartitionIndex.Evict` | src/storage/partition_index.rs:132-146 | Exactly the range is evicted, and the bytes freed and kept add up. |
| `PartitionIndex.EvictedRecords` | src/storage/partition_index.rs:132-146 | What the index keeps in memory after a flip is what the tiering step of the store's model keeps. |
| `CompactionPlan.PlanPartition` | src/storage/compaction.rs:173-239 | Plans are separate parts of the ranges in order, adjacent, small, within the source and size limits, and every small range followed by an adjacent small one is in a plan. |
| `Reservation.OneOwnerPerEpoch` | src/storage/reservation.rs:60-116 | However acquisitions interleave, no two nodes are told they own a partition at the same epoch. |
| `Reservation.VerifiedIsNewest` | src/storage/reservation.rs:121-131 | A node that verifies its reservation holds the newest grant there has been. |
| `Reservation.InvStep` | src/storage/reservation.rs:67-107 | Every takeover raises the stored epoch and the failover count by one. |
| `WalFrames.FramesIsTheScan` | benches/branchless_parsing_bench.rs:37-73 | Exactly one list of sizes tiles a prefix of a buffer with admissible complete frames and stops at the first defect. |
| `WalFrames.SizeReadIffWritten` | benches/branchless_parsing_bench.rs:77-87 | What is read from the first eight bytes is a 64-bit number if and only if these bytes are what is written for it. |
| `WalFrames.ParseRecordsBranched` | benches/branchless_parsing_bench.rs:28-74 | The loop returns exactly that scan as adjacent segments with consecutive logical offsets. |
| `WalFrames.CountFrames` | benches/simple_branchless_bench.rs:21-58 | The second scanner counts exactly as many frames on every buffer. |
| `WalFrames.EffectiveSize` | src/storage/wal/branchless_parser.rs:424-428 | The product of the checks is the size of an admissible frame that fits, and 0 otherwise. |
| `WalFrames.ParseBatchBranchless` | src/storage/wal/branchless_parser.rs:408-451 | The branchless loop returns the same segments as the branching one on every buffer. |
| `WalFrames.ScanFindsWritten` | benches/branchless_parsing_bench.rs:12-25 | Frames written at the head of a buffer are found whatever follows them. |
| `WalFrames.ScanOfEncode` | benches/branchless_parsing_bench.rs:12-74 | Scanning written frames gives one segment per payload, in order, pointing at exactly that payload. |
| `WalFrames.WholeIsMaximal` | benches/branchless_parsing_bench.rs:56-58 | The frames counted as whole lie before the cut, and the next one does not. |
| `WalFrames.ScanOfTruncation` | benches/branchless_parsing_bench.rs:37-73 | Scanning any truncation returns exactly the frames that lie wholly inside it. |
| `WalFrames.GenerateTestBuffer` | benches/branchless_parsing_bench.rs:12-25 | The generated buffer is the encoding of its payloads. |
| `HighWatermark.KthIsUnique` | benches/replication_manager_benchmarks.rs:52-73 | At most one value is the k-th smallest, so all the methods below agree. |
| `HighWatermark.KthOfPermutation` | benches/replication_manager_benchmarks.rs:52-73 | The k-th smallest does not depend on the order of the offsets. |
| `HighWatermark.KthIsGreatestHeld` | src/replication/manager.rs:316-321 | The k-th smallest of n is the greatest offset that at least n - k + 1 replicas have reached. |
| `HighWatermark.RaisingNeverLowers` | benches/replication_manager_benchmarks.rs:52-73 | Raising one replica's offset never lowers the k-th smallest. |
| `HighWatermark.KthByHeap` | benches/replication_manager_benchmarks.rs:52-66 | Popping k - 1 times from the min-heap and peeking gives the k-th smallest. |
| `HighWatermark.Sort` | benches/replication_manager_benchmarks.rs:69-73 | The array is sorted in place and stays a permutation. |
| `HighWatermark.KthBySort` | benches/replication_manager_benchmarks.rs:69-73 | Indexing the sorted copy gives the k-th smallest. |
| `HighWatermark.SecondSmallest` | src/replication/manager.rs:375-389 | The scan with maximal sentinels gives the second smallest, duplicates and sentinel values included. |
| `HighWatermark.KthByBoundedHeap` | src/replication/manager.rs:390-417 | The max-heap of at most k offsets ends with the k-th smallest on top. |
| `HighWatermark.FindKthSmallest` | src/replication/manager.rs:352-419 | Every branch gives the k-th smallest, and 0 for a k out of range. |
| `HighWatermark.ReplicationManager.RecalculateHighWatermark` | src/replication/manager.rs:300-334 | A call that no other comes between does not lower the watermark and ends at the greatest offset that at least the minimum number of in-sync replicas have reached, unless it was already beyond. |
| `Replication.WaitForAcknowledgments` | src/replication/manager.rs:188-285 | The record counts as durable if and only if there are no followers or enough of them acknowledge, in whatever order; with too few the call succeeds all the same. |
| `Replication.NeverFallsIff` | src/replication/manager.rs:301-334 | Over any interleaving of recalculations the watermark never falls if and only if no call stores a candidate that the watermark has outgrown since the call read it, and no offset below it is stored as it is. |
| `Replication.OrderlyNeverFalls` | src/replication/manager.rs:323-326 | While no recalculation comes between another's load and store, it never falls. |
| `Replication.OverlapLowers` | src/replication/manager.rs:301-326 | Two overlapping recalculations take the watermark from 9 back to 5. |
| `RateLimitConfig.AcceptedIsUsable` | src/config/rate_limiting.rs:182-395 | An accepted configuration has positive rates and bursts wherever a limiter can exist, and a positive maximum age where cleanup is enabled. |
| `TokenBucket.LevelLater` | src/config/rate_limiting.rs:3-3 | A bucket gains at most rate * t tokens in t seconds. |
| `TokenBucket.CheckSpendsOne` | src/config/rate_limiting.rs:3-3 | A check that passes costs exactly one token, one that fails costs none, and the level stays between 0 and the burst. |
| `RateLimiter.CategoryLimiters` | src/admin/rate_limiter.rs:102-133 | A limiter is created for exactly the enabled categories, full. |
| `RateLimiter.RateLimiterManager.New` | src/admin/rate_limiter.rs:77-162 | Creation fails exactly when validation does, with its first error; otherwise every limiter the configuration asks for exists and is full. |
| `RateLimiter.RateLimiterManager.CheckIpRateLimit` | src/admin/rate_limiter.rs:259-274 | The address gets its bucket or a full one, and the check spends from it; the quota is never zero. |
| `RateLimiter.RateLimiterManager.CheckCategoryRateLimit` | src/admin/rate_limiter.rs:277-324 | A refusal names a category whose limiter exists, with a rate above zero and its wait. |
| `RateLimiter.RateLimiterManager.UpdateIpAccess` | src/admin/rate_limiter.rs:327-332 | An address with an entry is counted once more in the statistics and cannot expire before the maximum age has passed again; one without is not counted; no tokens are spent and no other entry changes. |
| `RateLimiter.RateLimiterManager.MaybeTriggerCleanup` | src/admin/rate_limiter.rs:352-371 | A cleanup is started only if none is running and the interval has passed; none is started again while it runs, nor after its end before another interval has passed. |
| `RateLimiter.RateLimiterManager.CheckRateLimit` | src/admin/rate_limiter.rs:187-256 | State, refusal and started cleanup are those of `Request` for every address, category and clock. |
| `RateLimiter.RetryAfter` | src/admin/rate_limiter.rs:335-338 | The wait is between 1 and 60 seconds, and 1 unless the rate is below 60 per second. |
| `RateLimiter.RetryAfterSuffices` | src/admin/rate_limiter.rs:335-338 | After the announced wait an undisturbed bucket admits again. |
| `RateLimiter.Sweep` | src/admin/rate_limiter.rs:391-408 | In any order, a cleanup picks only expired entries, and as many of them as there are or as its limit allows. |
| `RateLimiter.RateLimiterManager.PerformCleanup` | src/admin/rate_limiter.rs:391-418 | Exactly those entries are removed; every fresh one stays. |
| `RateLimiter.RateLimiterManager.TotalRequests` | src/admin/rate_limiter.rs:487-491 | The reported total is the sum of all entries' counts, in any order. |
| `RateLimitRuns.GateWindow` | src/admin/rate_limiter.rs:201-214 | From any reachable state, in any window of length W of any interleaving, at most burst + rate * W requests pass, globally and per enabled category, requests begun before the window included. |
| `RateLimitRuns.SpacedStep` | src/admin/rate_limiter.rs:402-407 | Evictions of one address are at least the maximum age apart. |
| `RateLimitRuns.IpWindow` | src/admin/rate_limiter.rs:259-274 | Per address at most burst * (floor(W / max age) + 2) + rate * W requests pass in any window, however evictions fall, requests begun before it included. |
| `RateLimitEvictions.IntervalWindow` | src/admin/rate_limiter.rs:352-371 | When only requests start cleanups, whatever the maximum age, at most burst * (floor(W / interval) + 2) + rate * W requests of an address pass in any window, and one burst more if a cleanup is under way when it opens. |
| `RateLimitRuns.FlagRun` | src/admin/rate_limiter.rs:352-371 | At every point of every interleaving exactly one triggered cleanup is in flight if the flag is set and none otherwise, and triggers are at least the interval apart. |
| `RateLimitRuns.CountedRun` | src/admin/rate_limiter.rs:327-332 | In every interleaving each access update is found again in an entry, in an evicted count or among those that came too late. |
| `RateLimitRuns.NoneMissedRun` | src/admin/rate_limiter.rs:327-332 | None comes too late if no eviction falls between a request's check and its update. |
| `RateLimitRuns.AdmissionsConserved` | src/admin/rate_limiter.rs:481-499 | When evictions fall between whole checks, admitted requests equal the reported total plus the counts carried away. |
| `RateLimitCalls.UninterruptedRequest` | src/admin/rate_limiter.rs:187-256 | The steps of one uninterrupted request end as the manager's method specifies, for every clock. |
| `RateLimitVoid.AgelessVoidsIpLimit` | src/config/rate_limiting.rs:356-366 | With maximum age and interval zero, which validation accepts while cleanup is disabled, as many requests of one address are admitted one after the other at one instant as the global limit and that of their category allow. |
| `RateLimitVoid.UnspacedUnbounded` | src/admin/rate_limiter.rs:187-249 | If both are zero and cleanups evict at all, then for every n there is a run in which n requests of one address pass its check at one instant, whatever the global, address and category limits are. |
| `RateLimitVoid.IpLimitHoldsIff` | src/config/rate_limiting.rs:356-366 | Under every accepted configuration, the requests of one address that pass its check at an instant are bounded, by three of its bursts, if and only if the maximum age or the cleanup interval is positive or cleanups evict nothing. |
| `RateLimitVoid.ThreeBursts` | src/admin/rate_limiter.rs:352-371 | A run with maximum age zero and an interval of ten seconds in which three bursts of one address pass at one instant. |
| `RateLimitVoid.IpLimitExceeded` | src/admin/rate_limiter.rs:352-371 | An accepted configuration with a burst of one per address under which ten requests of one address pass at one instant. |
| `HealthTracker.BrokerHealthTracker.IsBrokerHealthy` | src/admin/api.rs:120-132 | Healthy means that the last success is known and within the timeout. |
| `HealthTracker.BrokerHealthTracker.CheckBrokerHealth` | src/admin/api.rs:135-167 | One entry is created or updated with the result and both clock readings of the check. |
| `HealthTracker.BrokerHealthTracker.GetAllBrokerHealth` | src/admin/api.rs:170-186 | Every tracked broker, and no other, is reported as the single query would. |
| `HealthTracker.BrokerHealthTracker.CleanupStaleEntries` | src/admin/api.rs:281-292 | Exactly the stale entries go. |
| `HealthTracker.ClusterHealthy` | src/admin/api.rs:636-667 | Healthy means a leader and a strict majority of brokers, or one of two. |
| `HealthTracker.EntriesSummariseChecks` | src/admin/api.rs:135-167 | In every run an entry is the summary of its broker's checks since it was created: online iff the last passed, failures counted since the last pass, success time of the last pass. |
| `HealthTracker.CleanupUnobservable` | src/admin/api.rs:120-132 | No answer about any broker, now or later, differs from that of the same run without cleanups, if the two readings of each check are at most twice the timeout apart. |
| `HealthTracker.CleanupKeepsHealthyCount` | src/admin/api.rs:636-667 | Nor does the count behind the cluster verdict. |
| `HealthTracker.EvictionObservableIff` | src/admin/api.rs:281-292 | Some moment finds an entry both stale and healthy if and only if its success was recorded more than twice the timeout after its check. |
| `HealthTracker.SlowCheckIsForgotten` | src/admin/api.rs:150-155 | For every slower check a run in which a cleanup makes a healthy broker unhealthy. |
| `Lifecycle.Broker.Start` | src/broker/broker.rs:285-450 | Start succeeds exactly from Created and then six tasks run; its second error never occurs; otherwise nothing changes. |
| `Lifecycle.Broker.Stop` | src/broker/broker.rs:460-545 | Stop succeeds exactly from Running and aborts all tasks; otherwise nothing changes. |
| `Lifecycle.Broker.AbortTasks` | src/broker/broker.rs:489-491 | Every tracked task is aborted, in order, and none is left. |
| `Lifecycle.Broker.HealthCheck` | src/broker/broker.rs:600-610 | A healthy report means all parts run; the QUIC server is reported as running from the start on, for good. |
| `Lifecycle.SuccessIff` | src/broker/broker.rs:285-310 | Of any sequence of calls exactly the first start and the first stop after it succeed, and states only move forward. |
| `Lifecycle.Broker.ShutdownOrder` | src/broker/broker.rs:484-541 | A stopped broker has aborted every task it spawned, then shut the store down, then drained replication, then entered Stopped, once and last. |
| `MetricsExport.MetricsCollector.CollectAndReport` | src/broker/metrics_collector.rs:169-176 | A tick adds what the counter gained since the last one and remembers the reading. |
| `MetricsExport.TelescopesIff` | src/broker/metrics_collector.rs:169-176 | The exported counter is last reading minus first if and only if no reading falls. |
| `MetricsExport.ExportedIsProcessedSince` | src/broker/metrics_collector.rs:49-49 | Over any run of the broker the exported counter is the broker's counter at the last tick less its value when the collector was built. |
| `WireConversion.TimestampRoundTrip` | src/proto_convert.rs:710-721 | Every 64-bit millisecond count, negative ones included, comes back exactly. |
| `WireConversion.ToProtoIsExact` | src/proto_convert.rs:710-715 | No operation of the conversion wraps around in 32 or 64 bits. |
| `WireConversion.TimestampWellFormedIff` | src/proto_convert.rs:710-715 | The message is a proper google.protobuf.Timestamp if and only if the count is not negative or is a whole second. |
| `WireConversion.ProtoRoundTripIff` | src/proto_convert.rs:718-721 | A proper Timestamp survives the opposite trip if and only if it counts whole milliseconds and does not combine negative seconds with a fraction. |
| `WireConversion.WalRecordRoundTrip` | src/proto_convert.rs:61-159 | A log record comes back as it was, except that an empty key is gone. |
| `WireConversion.RequestRoundTrip` | src/proto_convert.rs:306-347 | A replication request comes back as it was, records in order, except for empty keys. |
| `WireConversion.SecondTripIsIdentity` | src/proto_convert.rs:306-347 | A second trip changes nothing. |
| `WireConversion.SameWireIff` | src/proto_convert.rs:306-326 | Two requests have the same wire form if and only if they agree up to empty keys. |
| `WireConversion.RequestRefusedIff` | src/proto_convert.rs:331-347 | A message is refused if and only if it or one of its records lacks its partition or record. |
| `ProtoDiscovery.Walk.Visit` | build.rs:88-107 | One visit adds only entries of directories newly visited, settles all of them unless one cannot be read, reads no directory twice, and ends on cyclic links. |
| `ProtoDiscovery.Walk.VisitEntries` | build.rs:109-119 | The loop deals with every entry of a directory, files and directories alike. |
| `ProtoDiscovery.AllSettledIsComplete` | build.rs:88-122 | When every visited directory is settled, everything reachable was visited and all its files were recorded. |
| `ProtoDiscovery.Discover` | build.rs:78-122 | It fails exactly when a reachable directory cannot be read; otherwise the result is strictly sorted, names only existing files, and names each `.proto` file of each reachable directory exactly once. |

## Left out

- TieredSafety.NothingIsLost: asks for a careful run, and replicating calls, which append every record twice, are not careful; the condition for all runs is TieredExact.AlwaysRightIffHarmless.
- TieredSafety.InvFlip: concerns segments in which each offset stands once and in order, and objects that were stored whole; for any segment see TieredExact.StepSafeIff, and TieredLoss.FreshServesIff for the condition on its size and entries.
- TieredSafety.InvReclaim: concerns the same segments; for any segment see TieredExact.StepSafeIff, TieredLoss.FreshSurvivesIff and TieredLoss.RetierSurvivesIff.
- TieredSafety.InvDeleteSource: concerns merges that were stored whole; for any merge see TieredLoss.MergeServesIff.
- TieredSafety.InvCrash: concerns logs without frames of failed appends; for any log see TieredExact.SurvivesIff.
- TieredExact.AlwaysRightIffHarmless: takes one broker's view of one partition; another broker that writes to the same object storage, and readers that see a local object while it is being written, are not modelled.
- TieredExact.SurvivesIff: takes every successful append as on disk; with `fsync_on_write` off the last appends may be lost in a crash. The frames of the log and of the manifest are taken as whole or absent, with one torn frame at most in the manifest; how the log's blocks are written is left out.
- TieredExact.ServesIff: a read takes the index and the object in one step, while its answer may reach the cache any time later; the single retry after a missing object is left out.
- WatermarkRuns.NoHoleIffNotOpened: is exact for records that memory alone holds; a roll-back leaves a tiered or cached copy readable, for which see TieredLoss.RollbackServesIff and, for overlapping appends over the tiered store, TieredExact.StepSafeIff.
- WatermarkRuns.NoHoleIffNeverOpens: is exact for the same records.
- PartitionLog.ReinsertIsIdle: speaks of what memory holds; the second copy that the append leaves in the write-ahead log, and later in an object, is modelled in TieredStore.
- PartitionLog.ReadIsRun: leaves it to the store where a read ends, by its byte budget (PartitionIndex.PartitionIndex.Plan, ColdIndex.ReadObject), at the end of a tier or of what is cached, and holds of the store as long as its reads are right (TieredSafety.ServesView).
- BrokerCore.MessageBrokerCore.FetchRecords: reads the offset map of the broker model, to which a store with its tiers and its cache compares as TieredSafety.ServesView says; the byte limit appears as the number of records after which the read ends.
- ColdIndex.FoldManifest: covers one partition's records and leaves out the sorting of the result and the framing and checksums of the manifest file; what a torn frame does is modelled in TieredStore.
- TieredSafety.ServesView: other partitions appear only as the reason why a segment stays in place or the manifest is torn.
- PartitionIndex.PartitionIndex.InsertHot: takes record sizes as unbounded numbers; the 32-bit size estimate does not wrap.
- BrokerSteps.WatermarkCoversAppended: the watermark write and the counter update of a call are one step, since one lock is held over both, and a fetch is one step.
- BrokerCore.MessageBrokerCore.ReplicateAll: leaves out how many followers acknowledge, because its outcome does not depend on it; the steps of BrokerSteps carry the number, and Replication.WaitForAcknowledgments counts it.
- HighWatermark.ReplicationManager.RecalculateHighWatermark: is one uninterrupted call; overlapping calls are the subject of Replication.NeverFallsIff.
- RateLimiter.RateLimiterManager.CheckRateLimit: leaves out the reset time and the error text of a refusal.
- RateLimitRuns.GateWindow: takes the `governor` limiter as a token bucket over real time, and lets the periodic cleanup start at any time, not only at its interval.
- RateLimiter.Sweep: endpoint categorisation and pattern matching, beside it in the same file, are plain string comparisons and would only add easy members.
- HealthTracker.EntriesSummariseChecks: counts failures without the 32-bit limit; the remote check itself is a parameter.
- Lifecycle.Broker.Start: runs to its end, as does Stop; calls dropped at a suspension point are not modelled.
- ProtoDiscovery.Walk.Visit: an error while listing a directory counts as a directory that cannot be read, and the file system does not change during the walk.
- HighWatermark.KthByHeap: uses what a heap promises; the array layout of the standard library's heap is not modelled.
- WireConversion.RequestRoundTrip: the other message types would only add members of the same kind.
- MetricsExport.ExportedIsProcessedSince: the system and network gauges are left out.
- The group coordinator, the OpenRaft modules, TLS and access control, the QUIC and gRPC servers, the SDKs and the command-line tools are not modelled.
- The block-aligned log writer and its recovery scan are modelled only through the frame format in `WalFrames`.
