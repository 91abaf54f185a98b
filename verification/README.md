# EntroQ: a model of its protocols, and what they keep

EntroQ is a task queue and document store whose one write is an atomic,
version-checked batch. Its repository builds several protocols on that write. This
project models those protocols in Dafny and proves what they promise, over every
input, every interleaving and every reachable state. `dafny verify dfyconfig.toml`
checks all of it.

## What is modelled

**The eqmr run protocol** (`RunProtocol`, `RunInvariants`, `RunDocs`, `RunKnowledge`,
`RunOwnership`, `RunProgress`, `RunTheorems`, `StaleFinish`, `ControlLists`). Mappers,
reducers, two acceptance workers, two barrier workers, the collector and the error
worker share only docs and queues. `RunProtocol.Step` lists their steps: one commit, or
one read or side effect on the way to a commit. Any number of workers may hold the
same task, be duplicated, or stop for good anywhere, so a barrier's look may be stale
and a worker may die between the sink's commit and its own. `Reachable` quantifies over
all runs for every number of splits and partitions.

**The shuffle** (`Records`, `Cutting`, `Combining`, `MapOutput`, `Merging`, `Grouping`,
`Results`, `Shuffle`, `MapReduce`, `Combiners`, `Sums`). The writer, the merge and the
grouped stream are classes with the source's fields. `MapReduce.CombinedRunIsMapReduce`
joins the two halves: in every interleaving, a done run's output is a plain group-by of
all that was emitted. `MapReduce.DoneRunIsMapReduce` is its case without a combiner,
`MapReduce.TransparentRunIsMapReduce` its case of every transparent combiner.

**eqlink lanes** (`Lanes`, `LaneTurns`, `Eqlink`, `EqlinkFaults`). Two ends exchange
frames over queues whose names rotate in mid-conversation. The handlers are methods
on the lane objects; each is proved equal to a turn function, and the theorems are
about every sequence of turns that land. The sender makes its queues before it puts a
request in the inbox, the receiver its own after taking it from there. The failing runs
also keep time (`EqlinkFaults.InTime`): clocks do not go back, an idle end waits for its
heartbeat, and no end waits longer for its peer than it would.

**The run codec** (`Varints`, `RunCodec`, `RunReader`, `RunRoundTrip`, `RunStream`,
`RunIntegrity`, `RunFiles`). The hash is an arbitrary function to eight bytes. Integrity is stated
for a hash that tells apart the finitely many strings that were in fact hashed.

**Renewal and hand-off** (`Renewal`, `Leases`, `Versions`), **idle turns**
(`KeptConn`), **queue names** (`QueueNames`, `QueueParams`, `SessionQueues`), the
**file sink** (`FileSink`) and **batch checks** (`Batches`).

`Outcomes`, `Seqs`, `Texts`, `Widths` and `Decimals` are small helpers.

## Where the code does less than its comments say

Each of these is a lemma with a concrete failing input beside one that says exactly
when the property holds.

- *Finish is told the wrong thing.* `Sink.Finish` runs outside the commit that fences
  it. A map check whose claim has lapsed may list the pointer docs after reducers
  consumed them and tell `Finish` that every partition is empty
  (`StaleFinish.FinishMisinformed`, `StaleFinish.FinishesDisagree`,
  `RunTheorems.FinishExactlyWhen`), even as the last call of a run that is done
  (`StaleFinish.DoneAndMisinformed`). The output of a partition that is missed so is
  always committed (`RunTheorems.MissedIsCommitted`). The file sink then writes a
  manifest that does not describe its files (`FileSink.WrongManifest`,
  `FileSink.FileSink.ManifestExactlyWhen`).
- *A switch in a lane's first turn draws no reciprocal one*
  (`EqlinkFaults.EarlySwitchUnanswered`, `Eqlink.ReciprocityExactlyWhen`), *and may leave
  a later one unanswered too*, after both ends have heard of each other
  (`EqlinkFaults.LaterSwitchUnanswered`, `Eqlink.LaterReciprocityExactlyWhen`). It takes
  a sender that was told to wait for longer than 25 minutes
  (`WithSenderRequestTimeout`); by default the lane's first turn comes before any switch
  is due (`EqlinkFaults.DefaultsAnswer`).
- *A turn without bytes that rotates and loses its commit may strand the lane*, with all
  defaults in place (`EqlinkFaults.LostReciprocalStrands`, `EqlinkFaults.LostAckTurn`,
  `EqlinkFaults.LostDataTurn`, `EqlinkFaults.StrandedStays`).
- *Three renewal attempts do not fit inside the margin* at any lease anyone would ask
  for (`Leases.ThirdRetryLate`, `Leases.RetriesInMargin`, `Leases.OnlyTheShortest`). `pkg/worker/jitter.go` says that
  nothing jitters a renewal; the renewal loop does, and the model follows the loop.
- *The Combiner contract alone does not make output identical without one*
  (`Combiners.LawIsNotEnough`): values are sorted before they are combined and sorted
  again afterwards. For a combiner that leaves its own results as they are, it is
  identical exactly when the contract holds of sorted values and no key loses all of
  them (`Combiners.TransparentExactlyWhen`). `SumCombiner` changes
  nothing, overflow and failures included (`Sums.SumHarmless`).
- *A doc namespace that holds a NUL shares keys with another's docs*
  (`Batches.DocKeysClash`, `Batches.DocKeysDiffer`).
- *A repeated pointer passes for two different ones* (`ControlLists.RepeatsPass`,
  `ControlLists.PassIsRightExactlyWhen`), which no reachable state gives rise to
  (`RunTheorems.PointersAlwaysSame`).

## Model

| member | source | states |
|---|---|---|
| RunTheorems.StepKeeps | pkg/eqmr/control.go:174-570 | Every step of every worker keeps the run's invariant over docs, stored runs, sink, queues and work in progress. |
| RunTheorems.ReachableOk | pkg/eqmr/workers.go:61-120 | The invariant holds in every state reachable from what Setup leaves, for every split and partition count. |
| RunTheorems.ExactlyOnce | pkg/eqmr/control.go:363-426 | In every interleaving, each committed partition consumed exactly the runs of one accepted finish per split, none twice; a done run accepted every split and committed exactly the partitions with data. |
| RunTheorems.NoLostBarrier | pkg/eqmr/control.go:183-224 | Whenever a phase's inputs are all consumed, a check is queued that has not already looked too early, or one was quarantined and will fail the run; where none was quarantined, one is queued. |
| RunTheorems.NeverStuck | pkg/eqmr/control.go:431-454 | A reachable run that has not ended has a task, other than collection, left to handle. |
| RunTheorems.CollectionSafe | pkg/eqmr/control.go:539-570 | While a run has not ended, a run named by a pointer doc is stored, its partition has no marker, and no collection task or collector names it. |
| RunTheorems.PointersAlwaysSame | pkg/eqmr/control.go:379-400 | The pointers an attempt consumed are always the ones its acceptance finds, whenever it finds any. |
| RunTheorems.NothingUndone | pkg/eqmr/state.go:48-56 | Along every run phases only move forward and an end is final; acceptances and markers stay; committed output is never replaced, and does not change at all once done. |
| RunTheorems.FencedFinishes | pkg/eqmr/control.go:270-286 | Every fenced Finish is told exactly the partitions without data; in a done run the markers and that list split all partitions between them. |
| RunTheorems.FinishExactlyWhen | pkg/eqmr/control.go:327-353 | A call of Finish names the partitions without data if and only if it is fenced, or comes from a reduce check, or there is no data at all. |
| StaleFinish.FinishMisinformed | pkg/eqmr/control.go:338-344 | A reachable state in which Finish is about to be told that a partition with committed output is empty. |
| RunTheorems.MissedIsCommitted | pkg/eqmr/control.go:327-353 | A partition with data that a call of Finish does not count has its marker, and its output is committed. |
| StaleFinish.DoneAndMisinformed | pkg/eqmr/control.go:270-286 | A run that is done and has told Finish the right list, with a call still to come that names a partition with committed output. |
| StaleFinish.FinishesDisagree | pkg/eqmr/control.go:270-286 | A done run with data that has told Finish two different lists, so not every retried Finish gets the same arguments. |
| ControlLists.Search | pkg/eqmr/control.go:530-532 | The binary search finds an element's place in a sorted list, and whether it is there. |
| ControlLists.KeyPartitions | pkg/eqmr/control.go:513-535 | Fails exactly when what some key has between the prefix and the next slash is no integer; otherwise the result is increasing and has exactly the integers that the keys have there. |
| ControlLists.KeysName | pkg/eqmr/eqmr.go:382-394 | The keys made for a partition's pointers and for its marker are read back as that partition, whatever the split's key. |
| ControlLists.ListedParts | pkg/eqmr/control.go:338-340 | So listing the pointer docs' keys never fails, and finds exactly the partitions that the pointers are for. |
| ControlLists.EmptyPartitions | pkg/eqmr/control.go:446-451 | What a reduce check tells Finish is, in order, exactly the partitions without a marker. |
| ControlLists.CompareIDs | pkg/eqmr/control.go:467-481 | The loops answer whether there are as many consumed pointers as published ones, each of them published. |
| ControlLists.SamePointersMeans | pkg/eqmr/control.go:467-481 | Where the consumed pointers do not repeat, that answer is true if and only if both name the same set. |
| ControlLists.PassIsRightExactlyWhen | pkg/eqmr/control.go:467-481 | A comparison that passes names the same set if and only if no consumed pointer repeats. |
| ControlLists.RepeatsPass | pkg/eqmr/control.go:467-481 | Where they repeat it can be true of different sets. |
| Cutting.CutRecords | pkg/eqmr/intermediate.go:172-187 | Keeps order and content; no run is empty; only a single record may exceed the bound; no run could have taken the next record. |
| Cutting.NeighboursExceed | pkg/eqmr/intermediate.go:172-187 | Every two adjacent runs exceed the bound together. |
| Cutting.CutUnique | pkg/eqmr/intermediate.go:172-187 | Those clauses leave one possible cut. |
| Cutting.RunsSorted | pkg/eqmr/intermediate.go:172-187 | Runs cut from a sorted batch are sorted. |
| Combining.KeyRange | pkg/eqmr/intermediate.go:192-198 | Finds where a key's records end, or refuses exactly when its secondaries differ. |
| Combining.CombineRun | pkg/eqmr/intermediate.go:189-220 | The loop combines key by key, in order, and fails if a combiner does or secondaries differ. |
| Combining.CombinedValues | pkg/eqmr/intermediate.go:189-220 | Each key keeps exactly what the combiner made of all the values it had in the batch, and no key is added. |
| Records.SortedUnique | pkg/eqmr/intermediate.go:162-170 | Under the record order a collection of records has one sorted arrangement. |
| MapOutput.Writer.constructor | pkg/eqmr/intermediate.go:71-84 | A writer starts empty; a bound that is not positive becomes the default. |
| MapOutput.Writer.ClearBuffer | pkg/eqmr/intermediate.go:156-160 | Empties one buffer and takes its bytes off the total, which stays the sum over partitions. |
| MapOutput.Writer.PutAll | pkg/eqmr/intermediate.go:141-151 | The pieces are appended to their partition's runs, in order; no other partition's change; it stops only at a refused put. |
| MapOutput.Writer.Flush | pkg/eqmr/intermediate.go:121-154 | A buffer becomes sorted, bounded runs holding the combined batch, and that batch alone; nothing emitted is forgotten, also when it fails. |
| MapOutput.Writer.Largest | pkg/eqmr/intermediate.go:108-117 | The first partition with the most buffered bytes, or none when all are empty. |
| MapOutput.Writer.FlushLargest | pkg/eqmr/intermediate.go:108-119 | Leaves no more buffered than flushing any one partition would. |
| MapOutput.Writer.Write | pkg/eqmr/intermediate.go:86-100 | After a successful write the buffered bytes equal the sum over partitions and are below the bound; the record, and no other, is added to its key's partition; a flush happens exactly when the bound is reached, of the first largest partition. |
| MapOutput.Writer.Finish | pkg/eqmr/intermediate.go:222-233 | On success the stored runs hold everything that was written, partition by partition. |
| MapOutput.MapAttempt | pkg/eqmr/workers.go:280-312 | For every emit sequence and bound: a successful attempt's runs are sorted, bounded and hold exactly its emits by partition, in exactly the batches that the bound gives; without a combiner it fails only if a put is refused. |
| MapOutput.StoredPlain | pkg/eqmr/intermediate.go:121-154 | Without a combiner the stored records are the emitted ones. |
| Merging.Least | pkg/eqmr/intermediate.go:259-278 | What the heap pops is no greater than any other cursor's record. |
| Merging.Open | pkg/eqmr/intermediate.go:280-311 | What is left to read is the sorted arrangement of all that the runs hold; it fails only if a stream is broken. |
| Merging.Merged.Next | pkg/eqmr/intermediate.go:313-329 | Yields the first of what is left and leaves the rest; ends exactly when nothing is left. |
| Grouping.Grouped.Load | pkg/eqmr/intermediate.go:357-374 | Peeking loses nothing of the stream. |
| Grouping.Grouped.NextGroup | pkg/eqmr/intermediate.go:376-381 | A group opens at the key of the first record left, or nothing is left. |
| Grouping.Group.Next | pkg/eqmr/intermediate.go:394-401 | Moves to the key's next record, and stops only where another key or the end follows. |
| Grouping.ReadValues | pkg/eqmr/funcs.go:44-46 | However early a reducer stops, it has read a prefix of the key's values, in order. |
| Grouping.Drain | pkg/eqmr/intermediate.go:403-407 | Leaves the stream at the next key, wherever the reducer stopped. |
| Grouping.Reduce | pkg/eqmr/workers.go:418-439 | The answers are those for the whole sorted stream; a stream that breaks never yields an answer. |
| Grouping.ReducedGroups | pkg/eqmr/workers.go:418-439 | One answer for each distinct key, in increasing order, over all that key's values. |
| Grouping.ReducedFails | pkg/eqmr/workers.go:428-431 | A reduction fails if and only if the answer for some key does. |
| Grouping.GroupsUnique | pkg/eqmr/workers.go:418-439 | A collection has one group-by. |
| Results.Best | pkg/eqmr/results.go:112-120 | The run whose next key is least, the first such on a tie; none only when all are exhausted. |
| Results.MergeRuns | pkg/eqmr/results.go:103-128 | Every pair comes out exactly once, and sorted runs merge sorted. |
| Shuffle.MergeGroups | pkg/eqmr/results.go:100-128 | Merging outputs of partitions that own their keys groups everything by key. |
| Shuffle.ShuffleIsGroupBy | pkg/eqmr/funcs.go:85-90 | Sharding, reducing partition by partition and merging gives what reducing everything at once gives: each key once, in order. |
| MapReduce.AttemptWrote | pkg/eqmr/workers.go:280-312 | A finished attempt's runs hold, per partition, exactly the records its mapper emitted there. |
| MapReduce.AttemptWroteCombined | pkg/eqmr/workers.go:280-312 | The same with a combiner: the runs hold what it left of each batch, and the batches hold the emits. |
| MapReduce.BehindOutput | pkg/eqmr/workers.go:320-391 | Behind a committed partition stand all the emitted records of its keys, each as often as it was emitted, and nothing else. |
| MapReduce.CombinedRunIsMapReduce | pkg/eqmr/control.go:292-454 | In every interleaving, wherever each attempt's flushes fell, a done run's merged output is the group-by of everything the accepted attempts emitted, for any combiner that is harmless to the reducer. |
| MapReduce.DoneRunIsMapReduce | pkg/eqmr/control.go:292-454 | So it is without a combiner, for every reducer. |
| MapReduce.TransparentRunIsMapReduce | pkg/eqmr/funcs.go:57-59 | So it is with every transparent combiner, for every reducer that it matches. |
| MapReduce.SumRun | pkg/eqmr/funcs.go:121-154 | A done run with SumCombiner and SumReducer gives exactly the emitted keys, each with the 64-bit sum of all its values. |
| Combiners.LawForAll | pkg/eqmr/funcs.go:48-59 | The contract for two pieces holds for any number of pieces. |
| Combiners.TransparentExactlyWhen | pkg/eqmr/funcs.go:48-59 | For a combiner that leaves data it has touched as it is: output is identical without it, for every matching reducer and every placement of the flushes, if and only if its contract holds of values sorted before and after combining and no key loses all of its values. |
| Combiners.OrderFreeTransparent | pkg/eqmr/funcs.go:48-59 | So the contract is enough of combiners that ignore order and leave every key some value. |
| Combiners.LawIsNotEnough | pkg/eqmr/funcs.go:48-59 | A combiner that keeps its contract, a reducer that it matches, and a map attempt's three emits whose output it changes. |
| Decimals.ItoaAtoi | pkg/eqmr/funcs.go:121-154 | Every 64-bit integer reads back as it was written. |
| Sums.SumReducer | pkg/eqmr/funcs.go:122-135 | The loop answers the 64-bit sum of the values, or fails if one is not a number. |
| Sums.SumCombiner | pkg/eqmr/funcs.go:141-154 | The loop combines values into their sum, no values into none. |
| Sums.SumPermuted | pkg/eqmr/funcs.go:121-154 | Order does not change a sum, overflow and failures included. |
| Sums.CombinedSum | pkg/eqmr/funcs.go:137-154 | Combining keeps the sum, and fails only where summing does. |
| Sums.SumLaw | pkg/eqmr/funcs.go:48-59 | SumCombiner keeps the Combiner contract, failures included. |
| Sums.SumTransparent | pkg/eqmr/intermediate.go:121-154 | Wherever flushes fell, SumReducer answers after SumCombiner what it answers without it. |
| Sums.SumHarmless | pkg/eqmr/intermediate.go:121-154 | SumCombiner leaves SumReducer's whole output over a partition as it is, wherever flushes fell. |
| Sums.CombineFailureIsReal | pkg/eqmr/intermediate.go:189-220 | A batch that cannot be combined holds a key whose sum fails without a combiner too. |
| Lanes.Rotation | pkg/async/lane.go:59-67 | A rotated deadline is later than the one before it. |
| Lanes.ReceiveLane.Rotate | pkg/async/lane.go:59-67 | The lane takes a name that it has not had before. |
| Lanes.PeerLane.Observe | pkg/async/lane.go:114-126 | Records the peer's queue and reports a change only against an earlier one; an unreadable name changes nothing. |
| Lanes.SessionLanes.ObservePeer | pkg/async/lane.go:91-101 | Asks for a reciprocal switch exactly when the peer's queue changed and none was awaited. |
| Lanes.SessionLanes.InitiateSwitch | pkg/async/lane.go:103-106 | Rotates, and awaits the peer's switch. |
| Lanes.SessionLanes.ReciprocateSwitch | pkg/async/lane.go:108-110 | Rotates, and awaits nothing. |
| LaneTurns.HandleAck | pkg/async/sender_session.go:179-273 | The data end's handler is the data turn: same frame, same kind of turn, same lane state, for every acknowledgement and source. |
| LaneTurns.Acknowledge | pkg/async/receiver.go:389-452 | The acknowledging end's handler is the acknowledging turn. |
| LaneTurns.RequestEnd.Handle | pkg/async/receiver.go:356-452 | Metadata opens the request exactly once; what is written upstream grows by each accepted frame's bytes; a frame that cannot open it is answered with an error. |
| LaneTurns.ResponseEnd.Handle | pkg/async/sender_session.go:297-408 | Metadata starts the response exactly once; bytes are written in order; a late error is kept for the caller, unless writing the same frame's bytes broke first. |
| LaneTurns.LaneRun.Landed | pkg/async/lane_run.go:37-90 | After a turn lands the lane watches the queue its end now has. |
| Eqlink.TurnRoutes | pkg/async/lane_run.go:37-90 | Every landed turn keeps each frame where its recipient is watching. |
| Eqlink.TurnCarries | pkg/async/sender_session.go:216-272 | Every landed turn keeps written and in-flight bytes equal to what was taken. |
| Eqlink.TurnTells | pkg/async/lane.go:91-110 | Every landed turn keeps what the two ends know of each other's switches in step. |
| Eqlink.Routing | pkg/async/lane.go:59-126 | Over every sequence of landed turns: at most one frame in flight, none only when both ends are done, always in its recipient's current queue; no end uses a name twice. |
| Eqlink.Bodies | pkg/async/receiver.go:398-450 | Written bytes, then those in flight, are those taken, in order, none lost or repeated; the ends are equal once an unbroken lane is over. |
| Eqlink.ReciprocityExactlyWhen | pkg/async/receiver.go:510-594 | In every run of a lane each initiated switch that is not cut short draws exactly one reciprocal one, if and only if the first turn came before the guards for a switch held, or the lane ended with the turn after it. |
| Eqlink.LaterReciprocityExactlyWhen | pkg/async/lane.go:88-110 | From when both ends have advertised, the same holds if and only if it is not so that turn 0 switched, the other end made the first switch after it, and the lane went on. |
| EqlinkFaults.DefaultsAnswer | pkg/async/lane.go:11-15 | With the defaults, a request taken from the inbox within the sender's three minutes and a first turn within nineteen more, every initiated switch that is not cut short draws exactly one reciprocal one. |
| EqlinkFaults.EarlySwitchUnanswered | pkg/async/receiver.go:486-601 | With a sender that waits for 30 minutes and the defaults otherwise, a request that waited 25 minutes makes the first turn a switch that is answered by another. |
| EqlinkFaults.LaterSwitchUnanswered | pkg/async/lane.go:91-101 | In the same run, with that sender, the second switch goes unanswered too: the receiver takes it for the answer to its own. |
| EqlinkFaults.LostDataTurn | pkg/async/sender_session.go:201-272 | After a lost turn of the data end that moved no bytes, the answer to the next finds it, if and only if not (the peer's switch or its queue's deadline made the lost one rotate, and no deadline makes the next); otherwise that end is stranded. |
| EqlinkFaults.LostAckTurn | pkg/async/receiver.go:389-450 | The same of the end that acknowledges requests, on frames without bytes, by the peer's switch and its own deadlines. |
| EqlinkFaults.StrandedStays | pkg/async/lane_run.go:37-90 | In every run from there, an end on either side that waits in one queue for an answer it asked for in another never takes another turn, and its peer takes at most one. |
| EqlinkFaults.LostReciprocalStrands | pkg/async/lane.go:91-101 | With all defaults, a request lane idle for twenty heartbeats on which the sender's reciprocal switch is lost, and the retry lands plain and strands the sender; every turn is in time. |
| Varints.UvarintRoundTrip | pkg/eqmr/intermediate_codec.go:300-317 | Every 64-bit value reads back, whatever follows, in at most ten bytes. |
| RunCodec.BlockFits | pkg/eqmr/intermediate_codec.go:28-43 | No block the writer emits breaks the reader's limits on length and count. |
| RunCodec.Encoder.Flush | pkg/eqmr/intermediate_codec.go:56-70 | Closes the pending records as one checksummed block, chained to the one before. |
| RunCodec.Encoder.Add | pkg/eqmr/intermediate_codec.go:71-83 | Appends a record, closing the block it fills. |
| RunCodec.Encode | pkg/eqmr/intermediate_codec.go:47-95 | Refuses exactly the lists with a record over the limit; otherwise writes the records in order as full, bounded blocks and a counted footer. |
| RunRoundTrip.RecordReads | pkg/eqmr/intermediate_codec.go:321-342 | A record within the limit reads back, whatever follows. |
| RunRoundTrip.RunRoundTrip | pkg/eqmr/intermediate_codec.go:197-342 | Every run the writer can write reads back as exactly its records, then the end, consuming every byte, with or without the pointer's count. |
| RunStream.Stream.ReadUvarint | pkg/eqmr/intermediate_codec.go:300-317 | The byte loop reads the varint at the front, or tells a corrupt one from a source that broke off. |
| RunStream.Stream.Verify | pkg/eqmr/intermediate_codec.go:285-296 | Takes the checksum exactly when it chains what was read. |
| RunStream.Stream.ReadBlock | pkg/eqmr/intermediate_codec.go:235-258 | Takes a block within the limits whose checksum holds, or reports the fault. |
| RunStream.Stream.ReadFooter | pkg/eqmr/intermediate_codec.go:260-281 | Takes a footer whose count, checksum and end hold, or reports the fault. |
| RunStream.Stream.ReadFrame | pkg/eqmr/intermediate_codec.go:220-233 | Takes the next block or footer. |
| RunStream.Stream.Decode | pkg/eqmr/intermediate_codec.go:321-342 | Takes the block's next record, or finds the block corrupt. |
| RunStream.Stream.Next | pkg/eqmr/intermediate_codec.go:197-217 | Serves the first of the records to come, the end, or the fault, as reading the whole run would. |
| RunStream.OpenRun | pkg/eqmr/intermediate_codec.go:175-195 | Accepts exactly the runs that open with the format's header, and tells a wrong one from a short one. |
| RunStream.ReadBytes | pkg/eqmr/intermediate_codec.go:175-217 | Opening a run and calling Next to its end gives its records, or the fault that stops it. |
| RunFiles.WriteAndRead | pkg/eqmr/intermediate_codec.go:47-342 | Encoding refuses exactly the lists with a record over the limit, and what is written reads back, with Next, as exactly the list. |
| RunIntegrity.SumNames | pkg/eqmr/intermediate_codec.go:109-128 | Equal checksums come from equal chains, under a hash that tells apart what was hashed. |
| RunIntegrity.AcceptedRun | pkg/eqmr/intermediate_codec.go:220-296 | An accepted run is its header, its frames and their chain, and ends in the last checksum. |
| RunIntegrity.SameChecksumSameRun | pkg/eqmr/intermediate_codec.go:109-128 | Two accepted runs with the same last checksum are the same bytes. |
| RunIntegrity.TamperedRefused | pkg/eqmr/intermediate_codec.go:220-296 | Any other bytes that keep an accepted run's last checksum, by dropping, repeating, reordering or splicing blocks or otherwise, are refused. |
| RunIntegrity.EndCounts | pkg/eqmr/intermediate_codec.go:260-281 | The end is reported only when the footer's count, and the pointer's, is the number of records served. |
| Renewal.Renew | pkg/worker/worker.go:1834-1851 | Accepts an answer if and only if it names the claimed task, it alone, and every claimed set; what is held then has the same sets and docs, at the answer's versions. |
| Renewal.AnsweredInFull | pkg/worker/worker.go:1922-1937 | An answer that tells of one write to everything held leaves exactly what that write left in the store. |
| Renewal.StepKeeps | pkg/worker/worker.go:1971-2101 | Every step of the loop, its calls, late ones included, and the store keeps the invariant. |
| Renewal.HandOver | pkg/worker/worker.go:1971-2101 | In every interleaving, what is handed over is what the last answer among the steps told of, and afterwards the loop issues and reads nothing. |
| Renewal.CommitNamesStore | pkg/worker/worker.go:2072-2082 | For the task and each set, the commit names the store's version if and only if nobody else wrote that item and no renewal landed unread, before the hand-over or after it. |
| Renewal.StaleCommits | pkg/worker/worker.go:1971-2101 | A foreign write, a renewal that landed unread, and one that lands only after the hand-over, all happen. |
| Leases.GrantsEqual | pkg/worker/worker.go:1875-1893 | Renewing for what is held gets the first grant every time. |
| Leases.HoldUnbroken | pkg/worker/worker.go:1971-2101 | A hold stays unbroken through any number of renewals if and only if one answer's delay plus the next request's stays under the margin each time. |
| Leases.TwoRetriesFit | pkg/worker/worker.go:1910-1919 | Two retries fit inside the margin at any lease, however they are jittered. |
| Leases.RetriesInMargin | pkg/worker/worker.go:1910-1919 | Three do at a lease, however they are jittered, if and only if its margin leaves room for the longest jitter. |
| Leases.OnlyTheShortest | pkg/worker/worker.go:1895-1909 | No margin of 96 nanoseconds or more does. |
| Leases.ThirdRetryLate | pkg/worker/worker.go:1895-1909 | With a lease of 45 seconds a third retry can come too late. |
| Versions.FixVersions | pkg/worker/worker.go:542-592 | Every operation on the claimed task, on a held doc or on a held set names the version handed over, and every other operation is as it was. |
| Versions.FixedAtStore | pkg/worker/worker.go:542-592 | What was handed over at the store's versions commits at the store's versions. |
| Versions.Releasing | pkg/worker/worker.go:659-684 | Every claimed set whose arrival the commit does not decide goes back with it, and no other does. |
| KeptConn.StepKeeps | pkg/workgateway/keepalive.go:50-142 | Every step of owner, timers and idle turns keeps the invariant. |
| KeptConn.ConnAlternates | pkg/workgateway/keepalive.go:50-142 | In every interleaving, late timers included, receives and sends strictly alternate, the two parties never use the conn at once, and an answer waits for the idle turn. |
| KeptConn.WaitingIsKept | pkg/workgateway/keepalive.go:62-122 | While a request waits and no turn has failed, an idle turn is in progress, an idle call waits for the mutex, or the timer that is held has yet to fire; the call, or that timer's, begins a turn. |
| KeptConn.Kept.Owe | pkg/workgateway/keepalive.go:62-65 | Refines the machine's step: the request is owed and the timer armed. |
| KeptConn.Kept.Clear | pkg/workgateway/keepalive.go:69-92 | Refines the machine's step, and waits exactly while a turn is in progress. |
| KeptConn.Kept.EnterIdle | pkg/workgateway/keepalive.go:96-103 | Refines the machine's step: a stale timer begins nothing. |
| KeptConn.Kept.ExitIdle | pkg/workgateway/keepalive.go:107-122 | Refines the machine's step at the end of a turn. |
| QueueNames.Unescape | pkg/queues/queues.go:137-153 | The loop drops each quoting backslash and keeps what it quotes; a trailing one is dropped. |
| QueueNames.SplitUnescaped | pkg/queues/queues.go:114-132 | The loop splits at exactly the separators that are not escaped. |
| QueueNames.EscapedText | pkg/queues/queues.go:11-14 | Escaped text holds no separator and unescapes to what it was. |
| QueueNames.SplitJoin | pkg/queues/queues.go:114-132 | Splitting undoes joining. |
| QueueNames.SplitParts | pkg/queues/queues.go:114-132 | Joining undoes splitting, for every text. |
| QueueNames.ComponentsRoundTrip | pkg/queues/queues.go:11-153 | Unescaping and splitting undo escaping and joining for every list of components. |
| QueueParams.ComponentParams | pkg/queues/queues.go:102-110 | Visits exactly a component's parameters, in order. |
| QueueParams.PathParams | pkg/queues/queues.go:67-80 | Collects each key's values over all components after the first, in order, and no other key. |
| QueueParams.FoldPathParam | pkg/queues/queues.go:86-98 | Replaces exactly the components that carry the parameter. |
| QueueParams.IsAllDigits | pkg/queues/gc.go:56-63 | True exactly of texts of one or more decimal digits. |
| QueueParams.FoldIdempotent | pkg/queues/queues.go:86-98 | Folding a folded name changes nothing, for every name and key. |
| SessionQueues.SessionQueueIs | pkg/async/lane.go:132-137 | Joining the parts of a session queue's name cleans nothing away. |
| SessionQueues.SessionActivates | pkg/queues/gc.go:45-52 | For every session text, clean prefix and deadline, the activation read from the name is that deadline. |
| SessionQueues.SessionQueuesDiffer | pkg/async/lane.go:132-137 | Two names of one lane are equal if and only if their deadlines are. |
| SessionQueues.SessionsFold | pkg/queues/queues.go:86-98 | Folding on the session gives one name for all sessions and deadlines. |
| FileSink.FileSink.Claim | pkg/eqmr/sink_file.go:109-125 | Output that has an owner keeps it; a claim succeeds exactly for that owner. |
| FileSink.FileSink.Stage | pkg/eqmr/sink_file.go:135-157 | An attempt is staged under a name of its own and described by its sums; it succeeds for a partition in range of a run that owns the output. |
| FileSink.FileSink.Commit | pkg/eqmr/sink_file.go:163-200 | Stopped anywhere, a commit changes no existing shard, and every committed shard has the sums its attempt came with, of its length, recorded; those describe it if Stage made them; done, the partition has one; it refuses exactly for the source's reasons, and claims the output as its first effect. |
| FileSink.FileSink.FillEmpty | pkg/eqmr/sink_file.go:209-216 | Makes only missing shards of partitions said to be empty, and those empty. |
| FileSink.FileSink.Compile | pkg/eqmr/sink_file.go:218-228 | Lists empty sums or recorded ones for every partition, and fails only if one has none. |
| FileSink.FileSink.Finish | pkg/eqmr/sink_file.go:204-238 | Stopped anywhere, it keeps every shard and the manifest; done, the manifest lists every partition. |
| FileSink.FileSink.ManifestExactlyWhen | pkg/eqmr/sink_file.go:204-258 | A finished manifest matches every file if and only if no partition it was told is empty had data committed first, none it was told is not was called empty first, after sums for it were recorded, and every attempt it lists came with its own sums. |
| FileSink.WrongManifest | pkg/eqmr/sink_file.go:202-238 | Data is committed for a partition, Finish is told that it is empty, and the manifest it writes is wrong. |
| Batches.AllDependencies | entroq.go:1136-1168 | Accepts a batch if and only if no key is named twice, and returns exactly the keys named, at their versions. |
| Batches.DependencyError | entroq.go:1241-1268 | The loops list each failing operation of every class, in order. |
| Batches.ErrorExactlyWhen | entroq.go:1181-1268 | There is no error if and only if inserts are absent, named versions match and nothing changed or deleted is held by another; otherwise it lists the failing operations and only those. |
| Batches.AnyOrder | entroq.go:1124-1168 | Effects that name each key once give the same store in any order. |
| Batches.AcceptedInAnyOrder | entroq.go:1124-1168 | So the operations of an accepted batch, inserts without an ID included, may be applied in any order. |
| Batches.DocKeysDiffer | entroq.go:1270-1274 | Two namespaces share no key if and only if neither is the other followed by a NUL and anything. |
| Batches.DocKeysClash | entroq.go:1270-1274 | A namespace with a NUL shares every key with a doc of a shorter one. |

## Left out

- Combiners.TransparentExactlyWhen: of combiners that never fail and whose own results they leave as they are, which the contract implies (pkg/eqmr/funcs.go:50-53), and of records without secondary keys, the only ones mappers write; SumCombiner, which can fail, has its own theorem.
- EqlinkFaults.LostAckTurn: the end that acknowledges responses is not covered, because there any lost turn ends the session.
- Combining.CombineRun: a combined value that is not valid text counts as the combiner's failure.
- RunTheorems.NeverStuck: says a task is left, not that someone will handle it; fairness and timers are not modelled.
- SessionQueues.SessionActivates: timestamps in RFC 3339 form are an arbitrary function, and deadlines are whole seconds from 0 to 2^63-1.
- Real backends: the store is an abstract map on which claims and batches are single steps; leases are over-approximated by letting any number of workers hold a task.
- Setup by several launchers at once, and its staging in batches: a run starts as Setup leaves it.
- The document sink, the object store and Sweep of staged output beyond removing it: easy next to the file sink.
- JSON, UTF-8 validation, FNV, xxHash and SHA-256 internals: parameters, or left out.
- `container/heap` and `sort`: "remove a minimum" and "the sorted arrangement".
- A sink writer's own failures while reducing, and reading on after a fault: the source stops there.
- Peer silence in eqlink, beyond bounding the waits in the failing runs, and the best-effort cancel notice: out of band.
- HTTP, sockets, TLS and header copying: body sources and sockets are byte sequences.
- Checks of task and doc-set arrivals against the store: they add a class of the same shape.
- `PathComponents`, `PathLabels`, `prefixEnd`, other key layouts, Progress counts, shard names, metrics and logging: true but easy.
- Services, clients, authorization, transports and generated code.
