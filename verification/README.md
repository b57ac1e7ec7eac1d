# Verified model of the market-data pipeline

The pipeline's value lies in its delivery guarantees. This project models the three state machines that
carry them, each as explicit steps between suspension points, and proves what every run keeps.

- **Engine** (Kafka to Redis). `EngineRuns` is the machine: polling, bounded hand-off, Redis calls with
  ambiguous failures, cross-thread acknowledgements, coalesced commits, shutdown, crash, restart.
  `Acknowledgements` holds the drain; `EngineGuarantees` the theorems. The classes `KafkaConsumerBridge`,
  `DistributionEngine` and `EngineProcess` are the code, and each of their methods is an execution of the
  machine.
- **TickWriter** (Kafka to the history table). `TickWriterRuns` is the machine, `TickWriterGuarantees` the
  theorems, `TickWriters` the code, again proved to be an execution of the machine.
- **Gateway** (Redis to WebSocket clients). `Streams` is one client's stream: fan-out, the subscribe
  hand-off, classification, gap recovery with a suspended fetch, filters, the bounded queue.
  `StreamGuarantees` holds what is true whatever Pub/Sub does. `HandOff` closes the system with the engine
  and the channel; `GapHealing` and `Gapless` hold the theorems about it. `Composition` runs one process
  of `EngineRuns` beside it and proves that the engine the hand-off assumes is that one. `Registries` is
  the machine of the shared tables over all clients: subscribers, initialisations, channels, the lock held
  across Redis calls, and the reconnecting fan-out loop; `RegistryGuarantees` and `SerialisedCalls` hold
  its theorems. `SharedGateway` puts the engine, these tables with all their clients and connections, and
  the stream of any one client together, and carries the hand-off over to that client. The classes
  `AggregationBuffer`, `ClientSession` and `Gateway` are the code: each method is one stretch between two
  suspension points, and is proved to be one step of the stream machine of every session it touches and
  one step of the table machine.

A run is a fold of a total step function over any sequence of steps; a step that the current state does not
allow changes nothing, so a theorem about all sequences of steps is one about all interleavings. What the
environment answers (Redis, Kafka, the database, the clock, the socket) is an arbitrary parameter of a step.
In a method, a budget of turns that runs out stands for the process dying at that point.

Results that say exactly when something holds, because the code does not keep it always:

- Once a partition is caught up, Redis holds its fold and everything was published from the offset on at
  which the group's commits began, whatever crashes, retries and failed commits came before; from any
  reachable state with a committed offset, this holds again after every further run that catches up. It
  holds for the whole partition, over every run from a deployment with an empty Redis, if and only if the
  group was deployed with a committed offset below which there is no valid record, or the partition holds
  no valid record at all (`auto.offset.reset` is `latest`). The repository's README says the engine resumes
  from the last offset; a first start does not see what the log already holds.
- Commits reach the first malformed record after the first one tracked and no further: a malformed record
  is passed over without being acknowledged.
- Every symbol in use stays a desired channel exactly unless a removal starts while its symbol is in use;
  the check made before the lock is taken is not repeated under it. A concrete run is given in which a
  subscribe succeeds and leaves the client without its channel. When calls run one at a time this cannot
  happen.
- A subscribe that goes on to its snapshot is heard at that moment if and only if the fan-out loop had not
  stopped reading the connection: after an error or the end of listening the connection and the confirmed
  channels stay until it is closed (src/gateway/gateway.py:150-170), and nothing looks at that. A concrete run
  is given in which a subscribe succeeds and hears nothing. Over a run in which no channel in use is given up,
  every symbol in use is heard exactly while the loop listens.
- For a client among many, a symbol is disturbed exactly by a fault of the channel, its own unsubscribe, a
  subscribe of its own that is not the first, has a filter or meets a connection nobody reads, and the gateway
  no longer hearing the symbol. While no channel in use is given up, no other client can do that. Unless
  disturbed, the hand-off is gapless.
- Aggregated and raw classification always end at the same baseline. They end at the same last event if and
  only if the baseline they began with covers the last number pushed, or coalescing keeps the first event
  that carries that number; repeats that repeat their event are a sufficient case, and a concrete
  counterexample is given otherwise.
- Every event the dispatch loop finishes leaves the baseline at that event or above, in any mode and under
  either overflow policy, except exactly when it waited for its snapshot, the queue refuses that snapshot,
  and the baseline did not reach the event meanwhile.
- A client that left is registered nowhere if and only if its dispatch loop had not died of a failed fetch,
  or it was subscribed to nothing: awaiting a dead loop raises again, and the clean-up is skipped
  (src/gateway/gateway.py:711-718).

Assumptions taken from the system: the feed counts up by one per symbol and keys records by symbol
(src/feed/simulator.py:36-39,87-92), so a symbol's records share a partition; the engine handles one event
after the other and updates before it publishes (src/engine/engine.py:214-217).

Where the code differs from what its documentation suggests, the model follows the code: clean-up takes a
session out of the registry but leaves the session's own subscription set as it is
(src/gateway/gateway.py:824-829); a snapshot fetch that raises during gap recovery ends the dispatch loop,
so no further event of that client is dispatched (src/gateway/gateway.py:286-311); a snapshot write
overwrites unconditionally, so a replay after a restart takes a symbol's sequence number back for a while
(src/engine/snapshot_store.py:32-45), which is why the gap-healing and hand-off results are about one
engine process; a broker error does not flush a batch even when it has expired
(src/storage/tick_writer.py:91-94).

## Model

| member | source | states |
|---|---|---|
| Acknowledgements.DrainIsExact | src/engine/engine.py:99-138 | a successful drain moves each partition to the greatest cursor whose whole interval is acknowledged, and exactly that interval leaves the pending set |
| Acknowledgements.DrainLeavesNothingBehind | src/engine/engine.py:134-138 | nothing at or below the new cursor stays pending |
| Acknowledgements.FailedDrainKeepsAcknowledgements | src/engine/engine.py:126-132 | a failed commit loses no acknowledgement and moves no cursor |
| Acknowledgements.FailedCommitIsMadeUp | src/engine/engine.py:126-138 | the next successful drain reaches at least as far as the failed one would have |
| Acknowledgements.DrainIgnoresAckOrder | src/engine/engine.py:92-138 | the order of acknowledgements does not matter |
| Acknowledgements.OneByOneStandsAt | src/engine/engine.py:99-138 | a commit after every acknowledgement stands at the cursor that all of them together reach |
| Acknowledgements.CoalescedEqualsOneByOne | src/engine/engine.py:99-138 | one coalesced commit ends where a commit per acknowledgement would |
| Acknowledgements.Cursor | src/engine/engine.py:112-119 | the cursor loop ends at the first offset that is not acknowledged |
| Acknowledgements.KafkaConsumerBridge.TrackConsumed | src/engine/engine.py:95-97 | only the first offset of a partition is the starting point |
| Acknowledgements.KafkaConsumerBridge.AbsorbAcknowledgements | src/engine/engine.py:100-108 | the loop moves the whole queue into the pending map |
| Acknowledgements.KafkaConsumerBridge.FindAdvances | src/engine/engine.py:110-121 | exactly the partitions that can move, each with its cursor |
| Acknowledgements.KafkaConsumerBridge.PopRange | src/engine/engine.py:134-137 | the loop removes exactly the committed interval |
| Acknowledgements.KafkaConsumerBridge.ForgetCommitted | src/engine/engine.py:134-138 | every advanced partition is trimmed and moved, no other |
| Acknowledgements.KafkaConsumerBridge.DrainAcknowledgements | src/engine/engine.py:99-138 | the whole drain equals its specification, for an accepted and for a failed commit that may have landed in part |
| EngineRuns.RunKeeps | src/engine/engine.py:140-273 | the engine's invariant holds after any sequence of steps, crashes and restarts included, from any committed offsets within the log |
| EngineGuarantees.CommitSafety | src/engine/engine.py:99-170 | every offset from the first tracked up to the cursor and up to the committed offset was parsed, updated and published |
| EngineGuarantees.ExactlyOnePlace | src/engine/engine.py:71-138 | each valid record polled is in exactly one of: below the cursor, pending, acknowledgement queue, processing, hand-off queue, polling thread |
| EngineGuarantees.CommitProgress | src/engine/engine.py:158-160 | once caught up, a successful drain brings the cursor and the committed offset exactly to the first malformed record after the first one tracked |
| EngineGuarantees.CommitsNeverRegress | src/engine/engine.py:110-138 | no step moves a committed offset back, whatever landed of a failed commit, over crashes and restarts |
| EngineGuarantees.FoldIsLast | src/engine/snapshot_store.py:32-45 | the reference meaning of a log is the last valid record of each symbol |
| EngineGuarantees.ReplayConvergesFrom | src/engine/engine.py:99-253 | over crashes, retries and failed commits, a caught-up partition has everything published from where its commits began, and in Redis the fold of every symbol whose last record lies there |
| EngineGuarantees.SinceStays | src/engine/engine.py:110-132 | once a partition has a committed offset, the point from which its commits cover it never moves |
| EngineGuarantees.ReplayConvergesAfter | src/engine/engine.py:99-253 | from any reachable state in which the partition has a committed offset, any further run that catches up converges again, from that offset and from where the commits began |
| EngineGuarantees.ReplayConverges | src/engine/engine.py:99-253 | the whole partition has its fold in Redis and everything published, if the group's offset left out no valid record |
| EngineGuarantees.NothingInvented | src/engine/snapshot_store.py:32-45 | Redis holds no symbol that no record carries |
| EngineGuarantees.StartsAtLogEnd | src/engine/engine.py:37-42 | a run in which a partition without a committed offset is caught up and not converged |
| EngineGuarantees.CatchUpIsPossible | src/engine/engine.py:140-253 | from every deployment there is a run that catches up with the partition |
| EngineGuarantees.NothingBelowBase | src/engine/engine.py:37-42 | no run publishes a record below the offset the group was deployed with |
| EngineGuarantees.ConvergesExactlyWhenCovered | src/engine/engine.py:37-42 | over every run the whole partition converges if and only if the group was deployed with an offset that leaves out no valid record, or there is none |
| DistributionEngines.DistributionEngine.UpdateSnapshotOf | src/engine/engine.py:214-215 | the write of one attempt, as a step of the machine |
| DistributionEngines.DistributionEngine.PublishAndAcknowledge | src/engine/engine.py:216-251 | counted and acknowledged only if the publish succeeded |
| DistributionEngines.DistributionEngine.ProcessEvent | src/engine/engine.py:214-217 | update before publish; a shutdown requested meanwhile does not stop the attempt; an execution of the machine |
| DistributionEngines.DistributionEngine.ProcessConsumedEvent | src/engine/engine.py:219-253 | acknowledged once, only after an attempt in which both calls succeeded; retries publish only copies of the event; given up only between attempts, after a shutdown |
| EngineProcesses.EngineProcess.TakeRecord | src/engine/engine.py:150-168 | a malformed record is passed over, a valid one tracked; an execution of the machine |
| EngineProcesses.EngineProcess.constructor | src/engine/engine.py:32-51 | a new process starts at the committed offsets, elsewhere at the log's end of that moment |
| EngineProcesses.EngineProcess.TrackRecord | src/engine/engine.py:158-168 | the record is stamped, tracked and about to be handed off |
| EngineProcesses.EngineProcess.AbandonPut | src/engine/engine.py:85-90 | an abandoned record is in the queue or stays with the thread, never both |
| EngineProcesses.EngineProcess.HandOff | src/engine/engine.py:71-90 | waits for room while the asyncio side runs; a stop request abandons the record, which may have been queued all the same |
| EngineProcesses.EngineProcess.DrainOnce | src/engine/engine.py:171-174 | the drain of every turn and the one at the end |
| EngineProcesses.EngineProcess.AsyncStep | src/engine/engine.py:219-277 | whatever the asyncio side does meanwhile, an attempt in flight at shutdown included, is a step of the machine |
| EngineProcesses.EngineProcess.ConsumeLoop | src/engine/engine.py:140-174 | the polling loop, to its end or the process's death, is an execution of the machine |
| TickWriterRuns.CommitListIsGreatest | src/storage/tick_writer.py:173-183 | the batch's commits name each partition once, with its greatest offset |
| TickWriterRuns.GreatestIsGreatest | src/storage/tick_writer.py:175-180 | the greatest offset is one of the batch and none is greater |
| TickWriterGuarantees.RunKeeps | src/storage/tick_writer.py:70-216 | the writer's invariant holds after any sequence of steps |
| TickWriterGuarantees.CommitSafety | src/storage/tick_writer.py:163-216 | every offset below a commit is malformed or stored, and only valid records' keys are stored |
| TickWriterGuarantees.BatchIsWhatWasPolled | src/storage/tick_writer.py:76-115 | the batch is exactly the valid records polled since the last flush |
| TickWriterGuarantees.ExactlyOnceEffect | src/storage/history_store.py:106-143 | once drained, the table holds each valid record's key and nothing else |
| TickWriterGuarantees.InsertedNeverOvercounts | src/storage/tick_writer.py:186-214 | the counter is the rows added, short only of those of inserts that seemed to fail |
| TickWriterGuarantees.InsertedIsExact | src/storage/tick_writer.py:186-214 | over a run without an insert that took effect although it raised, the counter is the rows added |
| TickWriterGuarantees.DiscardMeansStopped | src/storage/tick_writer.py:117-121 | a batch discarded unflushed means a stop was requested |
| TickWriterGuarantees.StoppedIsFrozen | src/storage/tick_writer.py:80-121 | a stopped writer polls, stores and commits nothing more |
| TickWriterGuarantees.CommitsNeverRegress | src/storage/tick_writer.py:173-183 | no step moves a partition's commit back |
| TickWriterGuarantees.BatchBounds | src/storage/tick_writer.py:123-146 | an open batch stays within size and age limits over any mix of polls, and a flush starts at once at a limit |
| TickWriters.TickWriter.constructor | src/storage/tick_writer.py:36-47 | a new process starts at the committed offsets, elsewhere at zero |
| TickWriters.TickWriter.LastByPartition | src/storage/tick_writer.py:174-180 | the loop computes the commit list |
| TickWriters.TickWriter.CommitBatch | src/storage/tick_writer.py:173-183 | commits partition by partition; a raised commit ends the process in between |
| TickWriters.TickWriter.CommitOne | src/storage/tick_writer.py:182-183 | one commit of the list; the batch is done only after the last |
| TickWriters.TickWriter.TryInsert | src/storage/tick_writer.py:188-212 | one insert: confirmed and counted, or followed by a pause |
| TickWriters.TickWriter.Flush | src/storage/tick_writer.py:185-216 | commits only after a confirmed insert; a stop request ends the retries with nothing committed |
| TickWriters.TickWriter.HandleInvalidMessage | src/storage/tick_writer.py:163-171 | a malformed record is committed only after the earlier valid ones were flushed |
| TickWriters.TickWriter.TakeMessage | src/storage/tick_writer.py:96-115 | a valid record is appended, starting the batch clock if it is the first |
| TickWriters.TickWriter.PollNothing | src/storage/tick_writer.py:84-94 | an idle poll flushes an expired batch, a broker error does not |
| TickWriters.TickWriter.PollOnce | src/storage/tick_writer.py:81-115 | one poll, for at most the poll timeout, and what it leads to |
| TickWriters.TickWriter.Turn | src/storage/tick_writer.py:80-115 | one turn of the loop is an execution of the machine |
| TickWriters.TickWriter.RunLoop | src/storage/tick_writer.py:70-121 | the loop, to its end or the process's death, is an execution of the machine |
| DropOldest.QueueConserves | src/gateway/aggregator.py:47-55 | over any puts and takes the queue is a suffix of what was put, takes come in order, and puts are takes plus drops plus queued |
| Sequencing.OnlyTheLastMatters | src/gateway/session.py:135-165 | with gap detection off, an ordered stretch of events ends where its last event alone would |
| Sequencing.AcceptedIsFirst | src/gateway/session.py:135-165 | with gap detection off, what an ordered stretch ends with is the first event that carries its last number |
| Aggregation.AggregationBuffer.Push | src/gateway/aggregator.py:40-45 | raw mode passes on, aggregated mode keeps the latest per symbol |
| Aggregation.AggregationBuffer.Assign | src/gateway/aggregator.py:43-45 | dictionary assignment keeps a present symbol's place |
| Aggregation.AggregationBuffer.PutLatestEvent | src/gateway/aggregator.py:47-55 | a full output queue drops its oldest |
| Aggregation.AggregationBuffer.Flush | src/gateway/aggregator.py:57-67 | the loop puts every buffered event and clears the buffer |
| Aggregation.EmitsLastPerWindow | src/gateway/aggregator.py:40-67 | without overflow, each symbol's output is the last event of every window it occurred in, in order |
| Aggregation.AggregationRefinesRaw | src/gateway/aggregator.py:40-67 | classifying the aggregated output ends at the baseline where classifying every push ends, and at the same last event if and only if the first baseline covers the last push or coalescing keeps the first event of its number |
| Aggregation.RepeatsCanDiffer | src/gateway/aggregator.py:44-45 | a concrete history in which a repeated number with another content ends differently |
| Session.MessagesAreConserved | src/gateway/session.py:193-256 | enqueue calls are sent, dropped, queued, held or failed; enough drops under DISCONNECT mean disconnected |
| Session.Enqueued | src/gateway/session.py:193-223 | an accepted message is the newest in the queue, a refused one only counts as dropped |
| StreamGuarantees.RunKeeps | src/gateway/gateway.py:263-303 | the stream's invariant holds after any sequence of steps |
| StreamGuarantees.EnqueuedInOrder | src/gateway/gateway.py:275-303 | what is enqueued for a symbol within an epoch has strictly increasing sequence numbers |
| StreamGuarantees.StrictOrderToSocket | src/gateway/session.py:193-223 | so has what the writer takes, in every interleaving, mode and policy, with snapshots whose fetch was suspended across an activation |
| StreamGuarantees.TakenIsSubsequence | src/gateway/session.py:193-245 | the writer takes each message once, in the order enqueued; the queue is a suffix of what was enqueued |
| StreamGuarantees.TakenIsPrefix | src/gateway/session.py:193-245 | while the queue dropped nothing, what the writer took is exactly a prefix of what was enqueued |
| StreamGuarantees.RawContiguity | src/gateway/gateway.py:278-303 | under arbitrary loss, duplication and reordering each incremental is one past the message before it, and only snapshots jump |
| StreamGuarantees.BaselineIsLatest | src/gateway/session.py:148-165 | in an open unfiltered epoch `last_seq` is the latest message enqueued |
| StreamGuarantees.AcceptedMovedEnough | src/gateway/session.py:178-188 | an accepted incremental moved at least the threshold, less epsilon, from a nonzero baseline |
| StreamGuarantees.PriceIsLastAccepted | src/gateway/session.py:190-191 | a present `last_price` is the bid of the last data message enqueued |
| StreamGuarantees.NextStaysWithinDeadband | src/gateway/gateway.py:296-303 | with no spread limit, after every NEXT event the last accepted bid is the event's or within the threshold of it |
| GapHealing.NothingOvertakesSnapshot | src/engine/engine.py:214-217 | nothing in the channel or an aggregator is newer than the stored snapshot |
| GapHealing.GapHealsExactly | src/gateway/gateway.py:275-303 | in every mode and policy, finishing event X leaves `last_seq` at X or above, except exactly when X's snapshot is refused by the queue and the baseline does not cover X |
| GapHealing.EveryGapHeals | src/gateway/gateway.py:286-296 | so under drop-oldest `last_seq` is at least X once X is finished, whatever was lost, duplicated, reordered or dropped |
| GapHealing.MessagesAreAuthentic | src/gateway/gateway.py:275-303 | every data message enqueued is an event the engine wrote, or its snapshot |
| Gapless.FollowNewer | src/gateway/gateway.py:760-762 | discarding what the snapshot covers does not change where classification ends |
| Gapless.ReadIsOnTrack | src/gateway/gateway.py:748-751 | whatever was buffered before the snapshot read is covered by the snapshot |
| Gapless.ReleaseTracks | src/gateway/gateway.py:760-762 | the sorted and released buffer leads on from the snapshot as the whole buffer did |
| Gapless.StepTracks | src/gateway/gateway.py:173-303 | every step of engine, channel and client keeps an undisturbed symbol on track |
| Gapless.GaplessHandOff | src/gateway/gateway.py:744-773 | a first unfiltered RAW subscribe is told snapshot N, or the first event if nothing was stored, and then exactly N+1, N+2, ..., in every interleaving, and never awaits a gap's snapshot |
| Gapless.NeverClassifiedGap | src/gateway/session.py:148-162 | whichever event the dispatch loop takes next is not classified GAP |
| Gapless.HandOffIsComplete | src/gateway/gateway.py:173-192 | once nothing is on its way, the client was told everything up to the newest published event |
| Gapless.GaplessToTheSocket | src/gateway/session.py:193-245 | while the queue dropped nothing, the socket itself sees the snapshot and then exactly N+1, N+2, ... |
| Composition.RunKeeps | src/engine/engine.py:214-253 | every run of one engine process together with a client is a run of the hand-off's world whose Redis is the engine's, retries and ambiguous answers included |
| Composition.WriteExtends | src/engine/engine.py:214-217 | after each write of the engine the newest event of its symbol is the one written: the successor of the last one, or that one again |
| Composition.ReadsWhatTheEngineStored | src/engine/snapshot_store.py:32-58 | a client reads exactly what the engine stored, and what goes out on the channel is the event in the engine's hand |
| Composition.GaplessBehindTheEngine | src/gateway/gateway.py:744-773 | behind the real engine a first unfiltered RAW subscribe is told one snapshot, or the first record the process reads, and then exactly the consecutive incrementals, each with the log's content, ending at the baseline |
| Composition.ToldWhatTheEngineStored | src/gateway/gateway.py:173-192 | once nothing is on its way, the last number the client was told is the one the engine stored |
| Registries.Entered | src/gateway/gateway.py:763-767 | entering a session under a symbol adds exactly that membership |
| Registries.Struck | src/gateway/gateway.py:800-805 | removing it takes away exactly that membership and leaves no empty entry |
| Registries.StruckAll | src/gateway/gateway.py:815-829 | removing it everywhere takes away exactly its memberships |
| RegistryGuarantees.RunKeeps | src/gateway/gateway.py:125-260 | channel, lock and registry invariants hold after any sequence of steps |
| RegistryGuarantees.ChannelState | src/gateway/gateway.py:125-251 | in every interleaving confirmed channels are desired, and heard while the loop listens; there is a connection exactly while the loop connects, listens or fails, and none is confirmed without one; demand is set exactly when something is desired |
| RegistryGuarantees.TruthfulBreaksExactly | src/gateway/gateway.py:150-170 | channels stay confirmed that are subscribed no more exactly after listening ended with some of them lost |
| RegistryGuarantees.ReconnectConfirmsDesired | src/gateway/gateway.py:125-148 | a completed reconnect confirms exactly the desired channels, and all of them are heard |
| RegistryGuarantees.LockIsNeverStuck | src/gateway/gateway.py:202-221 | whoever holds the lock awaits an answer that releases it, also when the call failed |
| RegistryGuarantees.RegistryAgrees | src/gateway/gateway.py:744-834 | a session is registered under exactly its own set until it leaves in an orderly way, then nowhere; no entry is empty |
| RegistryGuarantees.DepartedIsGoneUnlessDead | src/gateway/gateway.py:709-718 | over any run a client that left is registered nowhere if and only if its dispatch loop had not died, or it was subscribed to nothing |
| RegistryGuarantees.AbandonedStays | src/gateway/gateway.py:711-718 | a client whose loop had died keeps its registrations, whatever happens next |
| RegistryGuarantees.InitialisesHeardExactly | src/gateway/gateway.py:202-231 | a subscribe goes on to its snapshot only with its channel desired and confirmed, and is then heard if and only if the loop had not stopped reading the connection |
| RegistryGuarantees.SubscribedUnheard | src/gateway/gateway.py:150-170 | a concrete run in which a second client's subscribe succeeds on a lost connection and hears nothing |
| RegistryGuarantees.DesiredBreaksExactly | src/gateway/gateway.py:234-260 | a step keeps every symbol in use desired if and only if it does not start the removal of one in use |
| RegistryGuarantees.InUseIsDesired | src/gateway/gateway.py:234-260 | so over a whole run without such a removal every symbol in use is desired |
| RegistryGuarantees.InUseIsHeardExactly | src/gateway/gateway.py:125-260 | and every symbol in use is heard exactly while the fan-out loop listens, whatever connections were lost before |
| RegistryGuarantees.SubscribedButNotDesired | src/gateway/gateway.py:798-811 | a concrete run of two clients that ends subscribed without the channel |
| SerialisedCalls.SerialStepKeeps | src/gateway/gateway.py:721-834 | with one call at a time, what is desired is accounted for at every step |
| SerialisedCalls.DesiredExactlyWhenSubscribed | src/gateway/gateway.py:721-834 | between calls the desired channels are exactly those of symbols with a subscriber, and nothing is initialising |
| SerialisedCalls.SubscribedIsHeardExactly | src/gateway/gateway.py:125-170 | with one call at a time every subscribed symbol is heard exactly while the loop listens |
| SerialisedCalls.SubscribeSucceedsOrChangesNothing | src/gateway/gateway.py:721-795 | success enters exactly this client under this symbol; failure leaves memberships and desired channels as they were |
| SharedGateway.RunKeeps | src/gateway/gateway.py:125-251 | with any number of clients and lost connections the whole is a run of the tables, of the engine and of one client's stream at once, which hears what the fan-out loop hears |
| SharedGateway.TablesAndStreamAgree | src/gateway/gateway.py:173-192 | the registry and the initialisations name a client exactly where its stream takes events in |
| SharedGateway.DisturbedExactly | src/gateway/gateway.py:150-251 | exactly channel faults, lost hearing and the client's own calls disturb a symbol for it |
| SharedGateway.RunDisturbs | src/gateway/gateway.py:150-251 | so over a whole run a symbol is undisturbed if and only if no act spoiled it |
| SharedGateway.OthersSpoilNothing | src/gateway/gateway.py:234-260 | while no channel in use is given up, no other client can disturb a symbol the client is subscribed to or initialising |
| SharedGateway.GaplessAmongMany | src/gateway/gateway.py:744-773 | unless spoiled, a client's first RAW subscribe among any other clients is told a snapshot, or the first record, and then exactly N+1, N+2, ... with the log's content |
| SharedGateway.CompleteAmongMany | src/gateway/gateway.py:173-192 | and once nothing is on its way a registered subscriber was told up to what the engine stored last |
| ClientSessions.ClientSession.ClassifySequence | src/gateway/session.py:135-165 | the decision, the baseline and the gap counter |
| ClientSessions.ClientSession.PassesFilter | src/gateway/session.py:169-188 | spread limit, deadband and the zero baseline |
| ClientSessions.ClientSession.EnqueueMessage | src/gateway/session.py:193-223 | one step of the stream machine and of the writer machine, and whether the message was accepted |
| ClientSessions.ClientSession.PutOrDrop | src/gateway/session.py:201-223 | the queue, the drop counter and the disconnect flag under either policy |
| ClientSessions.ClientSession.SendSnapshot | src/gateway/gateway.py:290-296 | a snapshot that is accepted becomes the baseline of sequence and price |
| ClientSessions.ClientSession.DeliverNext | src/gateway/gateway.py:298-303 | only an event that passes the filter and is accepted moves the price baseline |
| ClientSessions.ClientSession.DispatchEvent | src/gateway/gateway.py:275-303 | from taking an event to the next suspension: one step of the stream machine |
| ClientSessions.ClientSession.GapSnapshotFetched | src/gateway/gateway.py:287 | the fetch answers: one step of the stream machine |
| ClientSessions.ClientSession.GapFetchFailed | src/gateway/gateway.py:287-311 | the fetch raises and the loop is over |
| ClientSessions.ClientSession.RecoverGap | src/gateway/gateway.py:286-296 | the baseline is looked up again after the fetch, and only a newer snapshot goes out |
| ClientSessions.ClientSession.FinishSubscribe | src/gateway/gateway.py:750-773 | the hand-off in one stretch, or its failure: one step of the stream machine |
| ClientSessions.ClientSession.BeginSubscribe | src/gateway/gateway.py:744-746 | an empty initialisation buffer, before the snapshot is asked for |
| ClientSessions.ClientSession.SnapshotReturned | src/gateway/gateway.py:749 | the snapshot read: one step of the stream machine |
| ClientSessions.ClientSession.SubscribeFailed | src/gateway/gateway.py:782-785 | the client is told, and nothing else of its session changes |
| ClientSessions.ClientSession.OpenEpoch | src/gateway/gateway.py:755-759 | the first snapshot and the baselines, unless the queue refuses it |
| ClientSessions.ClientSession.TakeOn | src/gateway/gateway.py:760-773 | released events, subscription and filter |
| ClientSessions.ClientSession.ReleaseBuffered | src/gateway/gateway.py:760-762 | the loop releases exactly the newer buffered events in sequence order |
| ClientSessions.ClientSession.Forget | src/gateway/gateway.py:806-809 | the session's own part of unsubscribe |
| ClientSessions.ClientSession.NoteEvent | src/gateway/gateway.py:180-185 | an initialising session buffers the event |
| ClientSessions.ClientSession.PushEvent | src/gateway/gateway.py:190-191 | a subscribed session's aggregator takes the event |
| ClientSessions.ClientSession.FlushWindow | src/gateway/aggregator.py:57-67 | the end of a window is one step of the stream machine |
| ClientSessions.ClientSession.CheckDisconnected | src/gateway/session.py:234 | the writer stops once the client is disconnected |
| ClientSessions.ClientSession.TakeMessage | src/gateway/session.py:233-237 | the writer takes the oldest message |
| ClientSessions.ClientSession.SendReturned | src/gateway/session.py:241-256 | a sent message is counted and its latency sampled, a failed one disconnects and ends the writer |
| ClientSessions.ClientSession.RecordLatency | src/gateway/session.py:46-50 | the newest samples are kept, the oldest beyond the limit dropped |
| ClientSessions.ClientSession.CloseSession | src/gateway/session.py:276-289 | closing ends the writer, and a message it held is accounted for |
| Gateways.Gateway.FanoutEvent | src/gateway/gateway.py:173-192 | every session's stream takes the delivery step: buffered if initialising, pushed if subscribed, untouched otherwise |
| Gateways.Gateway.NoteAll | src/gateway/gateway.py:178-185 | the loop over the initialisations reaches each once and nobody else |
| Gateways.Gateway.PushAllOf | src/gateway/gateway.py:187-192 | the loop over the subscribed sessions reaches each once and nobody else |
| Gateways.Gateway.ConnectClient | src/gateway/gateway.py:629-663 | a new session shares no object with another |
| Gateways.Gateway.SubscribeReceived | src/gateway/gateway.py:721-734 | a subscribe up to its first suspension: the first try is part of it while the lock is free |
| Gateways.Gateway.TryChannel | src/gateway/gateway.py:202-213 | desired and demanded first; a confirmed channel is enough, no connection is a failed try, otherwise the lock is held for Redis's answer |
| Gateways.Gateway.ChannelAnswered | src/gateway/gateway.py:213-221 | only a successful subscribe confirms; the lock is released either way |
| Gateways.Gateway.TrySubscribe | src/gateway/gateway.py:224-231 | one try, which goes on to the initialisation only if the channel is confirmed |
| Gateways.Gateway.SubscribeAnswered | src/gateway/gateway.py:213-231 | a confirmed channel goes on to the initialisation, a failed try does not |
| Gateways.Gateway.GiveUpSubscribe | src/gateway/gateway.py:734-742 | after the last try the client is told, and an unused channel is given up |
| Gateways.Gateway.Settle | src/gateway/gateway.py:787-795 | the initialisation entry goes, and the registry decides about the channel |
| Gateways.Gateway.CompleteSubscribe | src/gateway/gateway.py:750-795 | the session becomes active and its client a subscriber in one stretch, or the call fails |
| Gateways.Gateway.SnapshotReturned | src/gateway/gateway.py:748-749 | the snapshot read concerns this session alone |
| Gateways.Gateway.Register | src/gateway/gateway.py:763-795 | the subscriber's registry entry and the end of its initialisation |
| Gateways.Gateway.FailSubscribe | src/gateway/gateway.py:782-795 | a failed call leaves registry membership as it was |
| Gateways.Gateway.Unsubscribe | src/gateway/gateway.py:798-811 | one step of the tables and of the session's stream |
| Gateways.Gateway.Unregister | src/gateway/gateway.py:800-811 | the registry part; the channel goes only with the last subscriber |
| Gateways.Gateway.StrikeInitializations | src/gateway/gateway.py:818-823 | the first clean-up loop |
| Gateways.Gateway.StrikeEverywhere | src/gateway/gateway.py:824-829 | the second clean-up loop, over the session's own symbols |
| Gateways.Gateway.Cleanup | src/gateway/gateway.py:815-832 | the client is nowhere any more, and which channels are about to be given up |
| Gateways.Gateway.DisconnectClient | src/gateway/gateway.py:709-718 | an orderly end cleans the client up everywhere; after a dead dispatch loop the clean-up is not reached and every session stays |
| Gateways.Gateway.DispatchFailed | src/gateway/gateway.py:287-311 | a raised fetch ends the client's dispatch loop: one step of the tables and of its stream, its registrations untouched |
| Gateways.Gateway.StartRemoval | src/gateway/gateway.py:234-244 | the channel stops being desired and confirmed, demand goes with the last one, and the lock is held for Redis's answer |
| Gateways.Gateway.RemovalAnswered | src/gateway/gateway.py:243-251 | a failed unsubscribe is ignored and the lock released |
| Gateways.Gateway.OpenConnection | src/gateway/gateway.py:125-148 | a new connection confirms nothing yet and asks for all desired channels under the lock |
| Gateways.Gateway.DemandArrived | src/gateway/gateway.py:141-142 | the loop wakes up only while something is desired |
| Gateways.Gateway.ListenEnded | src/gateway/gateway.py:150-164 | the tables stay as they are until the connection is closed, while the server may have dropped any of its channels |
| Gateways.Gateway.ConnectAnswered | src/gateway/gateway.py:128-130 | success confirms all that was asked for, failure nothing |
| Gateways.Gateway.CloseConnection | src/gateway/gateway.py:165-170 | no connection, nothing confirmed |

## Left out

- REST endpoints, Prometheus text, metrics, percentiles, history queries, health checks, logging: short or single-branch.
- JSON and msgpack encoding: a record or message is a valid event or malformed; prices are reals.
- The filter's parsing and validation: a filter reaches the model parsed.
- `wait_for` cancellation in the writer loop, which may lose a message at the moment of its timeout.
- Task cancellation at server shutdown: a client's clean-up begins when its own calls are over.
- Consumer-group rebalances within one process, thread timing and exact backoff sequences.
- Expiry of a stored snapshot, and engine restarts while a client is connected, which can take a snapshot back.
- Composition.RunKeeps: composes one engine process on an empty Redis; what an earlier process left behind is not composed.
- SharedGateway.RunKeeps: follows one client at a time, among all the others; its story ends when it leaves.
- Reconnects that the Redis client library makes on its own within one connection.
- Redis carrying out a Pub/Sub subscribe later than the client library returns from sending it.
- The prefix of channel names: a channel is named by its symbol.
- The order in which a drain lists its partitions; the broker's answer to a commit may fail for any subset.
- Ordering across a re-subscribe or unsubscribe of the same symbol: ordering results are about one epoch.
- The identity of buffered initialisation objects in the gateway's dictionary: they are reached through their session's task.
- Acknowledgements.KafkaConsumerBridge.Handoff: says when a record enters the queue; the waiting and its end are EngineProcess.HandOff.
- TickWriters.HistoryStore.InsertTicks: the fallback to zero when the database's status text cannot be read is not modelled.
- Gateways.Gateway.ConnectClient: a session is named by its client; that two live sessions draw the same identifier is not modelled.
