# Verification of the audit forwarder's commit protocol

The forwarder reads audit events from Kafka with a consumer thread, handles them in a processor thread
and writes them to Postgres from three writer threads (critical, normal, bulk). The consumer sends bulk
noise straight to the bulk writer's queue and everything else to the processor. When the processor has
handled a batch it flushes the producer, waits until the bulk writer has published high-water marks for
the noise of the batch (and, in strict mode, until the signal writers have done so for the events it
routed), and then commits one past the highest offset of each partition. The question is what a
committed offset proves.

`Protocol.dfy` is that system as one state machine. Its steps are the atomic actions of the threads,
the broker, the producer, rebalances and crashes; the steps are built from the same functions that the
loops of the program are proved against, as methods of classes, in the component modules. (`Routing` is
the exception: the choice of a lane reaches the state machine as part of an outcome.) A history that no
thread reads records what has happened, so that the theorems can name it.

| Files | Content |
|---|---|
| `Offsets`, `Split`, `Batch`, `Routing`, `WriterLane`, `Delivery`, `Rebalance` | the forwarder's own code, loop by loop |
| `Ledger`, `Barrier` | the broker's offsets, and the high-water mark as proof of persistence |
| `Protocol` | the whole forwarder as steps |
| `Invariant`, `LaneInvariant`, `OrderInvariant`, `CommitInvariant`, `SignalInvariant`, `NoiseInvariant`, `RevokeInvariant` | what every step keeps |
| `Theorems`, `Gate`, `Diversion`, `Causes`, `Rereading`, `Revocation` | what holds over every run |
| `Witnesses`, `LaneWitnesses`, `RebalanceWitness` | runs that show why the hypotheses are there |
| `Backpressure`, `Buffer`, `Backoff` | pausing the consumer, the single-writer buffer, retry delays |
| `Grouping` | the event table's run-grouping |
| `Classifier`, `MethodsFile` | the schema watcher's heuristics and its data file |
| `Sequences`, `Text` | dividing a list by flags; upper and lower case |

## What is proved, in short

A record is durable when its noise row is inserted, or when every message of one of its handlings,
DLQ records included, has been delivered. The group answers for what follows the offset from which it
first fetched a partition.

Without any assumption on what fails, over every interleaving and any number of crashes, every record
that the group answers for below a committed offset of a partition that has not been revoked is durable
or bears one of six blames: an assignment skipped it, a heartbeat poll returned it and nobody looked at
it, its batch was declined, its produce (or its DLQ record) was given up, the delivery of its DLQ record
failed, or its bulk write failed (`Theorems.NothingLost`). Everything below the committed offsets is
durable throughout a run exactly when every commit finds the blamed records that it passes over durable
(`Theorems.AtLeastOnceExactly`); in particular that is so in every run in which the process restarts
after such an event before it commits again (`Theorems.AtLeastOnce`). What a crash finds uncommitted is
fetched again, or skipped by an assignment, before it is committed (`Rereading.ReadAgain`). For each
blame there is a run in which a commit passes a record that is not durable and bears no other blame;
whatever is passed in that way is lost in the next crash, though it may wait in a queue until then
(`Witnesses.CrashLoses`).

The delivery gate is stated by what was handled and reported. Whatever else happens, if one of the
ordinary messages of a handling is reported as failed before its batch is flushed, the batch is not
committed (`Gate.FailedProduceShutsGate`), and a gate that opens proves that all of them have been
delivered (`Gate.OpenGateDelivers`). The consumer diverts a record exactly if it is noise without a denial
and the bulk queue has room (`Diversion.DivertsExactly`, `Diversion.DenialsAreHandled`). Every blame goes
back to a step that has put the record at risk (`Causes.BlameHasCause`).

Strict mode is to have every event of the signal lanes in `audit_events` before its offset is committed.
Without any assumption, an event below the committed offset is there or is suspect: the other signal lane
raised their common mark over it, its write failed, the full normal lane dropped it, or its batch was
declined (`Theorems.StrictMode`). The promise is kept throughout a run exactly when every commit finds
the suspect events that it passes over in the table (`Theorems.StrictModeExactly`).

A revoke commits without any gate. What it commits is durable exactly when the current batch has nothing
open below it and every blamed record below it is durable (`Revocation.SafeRevokeExactly`), and it moves
a partition backwards exactly when one past the published offset lies below the committed one
(`Revocation.RevokeLowersExactly`).

## Where code and documentation disagree

The model follows the code.

- `audit_forwarder.py:190-193` and `3584-3590` say that the events of a declined batch are consumed
  again on restart. They are if the process restarts before the next commit of their partition; nothing
  seeks back, and the next successful batch commits past them (`Witnesses.DeclinedIsPassed`).
- `audit_forwarder.py:1143-1149` says that `on_revoke` preserves at-least-once. It consults no gate and
  commits records whose messages are still undelivered (`Witnesses.RevokeCommitsUndelivered`);
  `Revocation.SafeRevokeExactly` says when its commit is safe. The comment also says that the higher of
  two commits is kept. A commit overwrites. The dictionary that `on_revoke` reads holds handled offsets
  only, while diverted ones are committed too, so already in one ownership a revoke can move a partition
  back (`LaneWitnesses.RevokeMovesBack`, and exactly when: `Revocation.RevokeLowersExactly`); and it
  outlives the ownership, so a partition that comes back and is revoked again is committed to the old
  offset, whatever its other owner has committed (`Rebalance.EarlierOwnershipIsCommitted`).
- `audit_forwarder.py:3530-3534` promises, with `SIGNAL_COMMIT_REQUIRES_PG`, that events are in Postgres
  before the commit. The two signal writers share one mark per partition, so a critical event raises it
  over an earlier event that still waits in the normal lane, and the commit passes that one
  (`LaneWitnesses.SharedMarkPasses`). `Theorems.StrictModeExactly` says when the promise is kept.
- `audit_forwarder.py:1531-1537` says that unrecoverable events have already been delivered to the DLQ.
  Nothing checks that: `send_to_dlq` swallows a refusal, and a failed delivery is counted apart from the
  errors that the gate looks at (`audit_forwarder.py:1016-1021`). The event is committed and is nowhere
  (`Witnesses.FailedDlqIsCommitted`).
- `audit_forwarder.py:1115-1117` says that only a first join starts from `auto.offset.reset`. So does
  every restart before a partition's first commit, and with `latest` it skips what the earlier life had
  fetched (`Theorems.AssignSkipsExactly`, `Witnesses.SkippedIsPassed`).
- `audit_forwarder.py:2702-2704` says that an item that finds the queue full when it is requeued goes to
  the DLQ. The code drops it (`WriterLane.DisperseAllSplits`). The log message at 2732-2736 counts three
  failed attempts; it is four (`WriterLane.LaneConserves`, `WriterLane.FourthWrite`).
- `audit_forwarder.py:3001`, `3019` and `3040` call `consumer.poll(0)` for heartbeats and ignore its
  result. `poll` returns a record when one is there (lines such as 1801 use it so), and the position
  moves past it (`Witnesses.DiscardedIsPassed`).
- `audit_forwarder.py:3055-3060` drops an envelope when the record queue is still full. The consumer is
  the queue's only producer, so that happens only when a shutdown has ended the wait, and then the
  thread exits: the dropped records are never passed by a commit of the processor
  (`Backpressure.DropsNeedShutdown`, `Theorems.DroppedIsReadAgain`).
- `schema-watcher/watcher.py:300-308` lists ACL changes as CRITICAL and every deletion as CRITICAL. The
  code judges ACLs and many entity deletions HIGH (`Classifier.DeletionsCanBeHigh`,
  `Classifier.AclChangesCanBeHigh`); `Classifier.DeletionsExactly` and `Classifier.AclChangesExactly` say
  which are CRITICAL.

## Model

| member | source | states |
|---|---|---|
| Theorems.AtLeastOnce | audit_forwarder.py:2880-3636 | over runs with any number of crashes, if the process restarts after harm before it commits again, every record the group answers for below a committed offset is durable: its noise row is inserted, or all messages of one of its handlings, DLQ records included, were delivered |
| Theorems.AtLeastOnceExactly | audit_forwarder.py:2880-3636 | over any run with any number of crashes, everything below the committed offsets has been durable at every moment if and only if every commit found the blamed records it passed over durable |
| Theorems.SafeCommitExactly | audit_forwarder.py:3596-3614 | a commit keeps everything below the committed offsets durable if and only if every blamed record it passes over is durable |
| Theorems.NothingLost | audit_forwarder.py:2880-3636 | with no assumption at all: below the committed offset a record is durable or blamed; a record of an assigned partition is settled, in flight or still to be fetched |
| Rereading.ReadAgain | audit_forwarder.py:1112-1135 | over runs: a record that a crash finds uncommitted and that is committed later has been fetched again in between, or an assignment without a committed offset has skipped it |
| Rereading.AnswerableStays | audit_forwarder.py:1112-1135 | no step makes the group stop answering for a record of a partition that stays |
| Theorems.AssignSkipsExactly | audit_forwarder.py:952 | an assignment leaves an uncommitted record behind if and only if the partition has no committed offset and the reset is `latest`; the record is then blamed as skipped |
| Theorems.NoGapBetweenThreads | audit_forwarder.py:2897-2928 | below the committed offset every record was handled by the processor or accepted by the bulk queue, whatever was declined in between, unless a heartbeat poll discarded it or an assignment skipped it; what an earlier life did above the committed offset does not count |
| Theorems.DroppedIsReadAgain | audit_forwarder.py:3055-3060 | the envelope dropped at the full record queue is never passed by a commit |
| Theorems.CommitIsExact | audit_forwarder.py:3596-3614 | a commit sets exactly the partitions with a handled or diverted record of the batch, each to one past the highest such record |
| Theorems.CommitsIncrease | audit_forwarder.py:3596-3620 | successive commits of a partition strictly increase, across declined batches, failed commits and crashes, while the partition stays |
| Theorems.CommittedNeverFalls | audit_forwarder.py:3596-3620 | the committed offset of a partition that stays never falls |
| Theorems.NoiseBarrierExact | audit_forwarder.py:318-363 | in every reachable state without a failed bulk write, the mark has reached a short-circuited offset if and only if every short-circuited record of the partition up to it is inserted |
| Theorems.NoCommitPassesNoise | audit_forwarder.py:3551-3614 | no commit passes over a short-circuited record of this life that is not inserted, whichever batch it came with, unless one of its bulk writes failed or its batch was declined |
| Theorems.NoiseBelowCommit | audit_forwarder.py:3551-3614 | the same of every short-circuited record below the committed offset, in every reachable state |
| NoiseInvariant.NoiseKept | audit_forwarder.py:2897-2928 | after every step a short-circuited record is in flight as one, or inserted, or one of its writes failed, or its batch was declined |
| Theorems.StrictMode | audit_forwarder.py:3569-3584 | in strict mode, every event routed to a signal lane and below the committed offset is in the table, or the other lane raised their common mark over it, or its write failed, or the full normal lane dropped it, or its batch was declined |
| Theorems.StrictCommitExactly | audit_forwarder.py:3530-3614 | in strict mode, a commit keeps everything committed that was routed to a signal lane in the table if and only if every suspect event it passes over is there |
| Theorems.StrictModeExactly | audit_forwarder.py:3530-3614 | over any run with any number of crashes, everything committed that was routed to a signal lane has been in the table at every moment if and only if every commit found the suspect events it passed over there |
| Causes.RoutedIsInserted | audit_forwarder.py:3185-3203 | in the life of the process that routed it, an event of the critical or the normal lane lies below the committed offset only if it is in the table or some step before has made it suspect |
| Causes.SuspectHasCause | audit_forwarder.py:2752-2843 | a suspect event has been dropped at the full normal lane, or part of a failed write or of a declined batch, or was waiting for its first write when the other lane published a mark at or above it |
| Causes.BlameHasCause | audit_forwarder.py:2880-3636 | a blamed record has been returned by a heartbeat poll, or part of a declined batch, or handled with an exhausted produce or without its DLQ record, or left behind by an assignment without a committed offset, or its DLQ record or its bulk write has failed |
| Causes.CrashForgetsUncommitted | audit_forwarder.py:1112-1135 | after a crash nothing is held against or for a record that will be read again, and everything about the committed ones |
| Diversion.DivertsExactly | audit_forwarder.py:2897-2928 | in every run, the record the consumer looks at goes to the bulk queue if and only if short-circuiting is on, the record is noise and the queue has room |
| Diversion.DenialsAreHandled | audit_forwarder.py:366-419 | in every run, whatever the processor is spared of its batch names a noise method and carries no denial |
| Gate.GateExactly | audit_forwarder.py:3536-3549 | from the moment the processor takes a batch to its flush: the first gate opens if and only if nothing is outstanding, no failed delivery of an ordinary message was reported in between, and no message of the batch met an infrastructure failure |
| Gate.FailedProduceShutsGate | audit_forwarder.py:1024-1031 | if one of the ordinary messages of a handling, the first ones it puts on the wire, is reported as failed before the flush, the first gate stays shut |
| Gate.OpenGateDelivers | audit_forwarder.py:3536-3549 | when the flush finds the batch clean, every ordinary message of each of its handlings has been delivered |
| Gate.ShutGateStays | audit_forwarder.py:3584-3595 | a gate that is shut stays shut until the batch is finished with, whatever the barriers say |
| Gate.UndeliveredHasCause | audit_forwarder.py:1016-1021 | a record is blamed for an undelivered DLQ record only after the failure of a message beyond the ordinary ones of its handling was reported |
| Gate.WriterSendsToDlq | audit_forwarder.py:2712-2750 | an item that has used up its retries costs one DLQ message |
| Theorems.RunInv | audit_forwarder.py:2880-3636 | the invariant of all threads together holds in every state of every run |
| CommitInvariant.OpenGatesSettle | audit_forwarder.py:3540-3590 | when all three gates are open, every record of the batch is durable, or its produce was given up, or its DLQ record failed, or its bulk write failed |
| CommitInvariant.VectorAdvances | audit_forwarder.py:3596-3614 | the vector to commit lies strictly above the committed offset of each of its partitions |
| CommitInvariant.CleanResolves | audit_forwarder.py:3101-3549 | nothing outstanding and no new delivery error means that every handling of the batch is delivered, or was spoiled, or has a failed DLQ record |
| Revocation.SafeRevokeExactly | audit_forwarder.py:1152-1171 | everything below the offset that a revoke commits is durable if and only if, up to the published offset, what the current batch has handled or diverted has no open message or is inserted, and every blamed record is durable |
| Revocation.RevokeLowersExactly | audit_forwarder.py:1152-1171 | a revoke lowers the committed offset if and only if one past the published offset lies below it; in one ownership only when the last committed record was a diverted one |
| Revocation.RevokeExactly | audit_forwarder.py:1138-1183 | a revoke takes the named partitions away and has them skipped; if its commit succeeds, those with a handled message are committed to one past the highest, and nothing else is |
| Revocation.AssignExactly | audit_forwarder.py:1112-1135 | an assigned partition starts from its committed offset or where the reset says, and is no longer skipped |
| RevokeInvariant.PublishedKept | audit_forwarder.py:3438-3440 | after every step the published offset bounds what the current batch has handled, and lies less than one below the committed offset unless that comes from a diverted record |
| SignalInvariant.AwaitedLands | audit_forwarder.py:272-292 | what the open signal barrier waited for has been inserted, has failed, or was overtaken by the other signal lane |
| LaneInvariant.SharedLanesMove | audit_forwarder.py:2819-2843 | every writer step at one of the two lanes that share their marks leaves everything that waits for its first write, in either lane, above its mark or on record as overtaken, and a lane overtakes nothing of its own |
| OrderInvariant.SignalBehindKept | audit_forwarder.py:3067-3203 | whatever is in a signal lane lies below whatever the processor has not reached yet, after every step |
| OrderInvariant.BulkBehindKept | audit_forwarder.py:2897-2928 | whatever was short-circuited lies below whatever the consumer has not looked at yet, after every step |
| Witnesses.DeclinedIsPassed | audit_forwarder.py:3584-3614 | a run in which a batch is declined at the noise barrier and the next commit passes its unwritten record |
| Witnesses.DiscardedIsPassed | audit_forwarder.py:3015-3022 | a run in which a heartbeat poll takes a record that the next commit passes |
| Witnesses.ExhaustedProduceIsCommitted | audit_forwarder.py:3150-3274 | a run in which a record none of whose produces was accepted is committed |
| Witnesses.RevokeCommitsUndelivered | audit_forwarder.py:1152-1171 | a run in which a revoke commits a record none of whose messages has been delivered |
| Witnesses.FailedDlqIsCommitted | audit_forwarder.py:3441-3470 | a run in which a poison pill is committed although the delivery of its DLQ record has failed |
| Witnesses.SkippedIsPassed | audit_forwarder.py:1115-1117 | a run in which a restart skips a record that the group answers for and the next commit passes it |
| Witnesses.CrashLoses | audit_forwarder.py:3596-3614 | whatever a commit has passed without its being durable is lost in the next crash |
| Witnesses.FirstJoinSkips | audit_forwarder.py:1115-1117 | a run in which a partition without a committed offset is assigned at the end of the log and a record from before a crash is skipped |
| LaneWitnesses.RequeuedIsPassed | audit_forwarder.py:2752-2756 | a run in which a later write raises the mark over a record that waits for its retry, and the commit passes it |
| LaneWitnesses.RevokeMovesBack | audit_forwarder.py:1152-1165 | a run within one ownership in which a revoke moves a partition from offset 2 back to 1 |
| LaneWitnesses.SharedMarkPasses | audit_forwarder.py:2819-2833 | a strict-mode run in which the mark of a critical event covers an earlier event that waits in the normal lane, and the commit passes it |
| RebalanceWitness.LaterOwnershipPasses | audit_forwarder.py:318-363 | a run in which a partition is revoked and comes back to the same process, and the mark of its first ownership lets a commit pass a record that waits in the bulk queue and bears no blame |
| LaneWitnesses.DroppedIsAwaited | audit_forwarder.py:3192-3203 | an event dropped at the full normal lane still enters the map that the signal barrier waits for |
| Barrier.StepKeepsBarrier | audit_forwarder.py:2765-2843 | every step of every thread at a lane keeps the relation between its marks and its items |
| Barrier.BarrierSound | audit_forwarder.py:344-363 | a mark that has reached an offset proves that every event sent at or below it is inserted or has failed a write |
| Barrier.BarrierExact | audit_forwarder.py:344-363 | without failed writes the comparison of one maximum is equivalent to asking for every event |
| WriterLane.LaneConserves | audit_forwarder.py:2692-2843 | in every reachable state an accepted item is queued, in hand, persisted, in the DLQ or dropped; its retry count is the number of its failed writes, of which there are at most four, and exactly four before the DLQ |
| WriterLane.LaneDrains | audit_forwarder.py:2765-2843 | once arrivals stop, the items still written are at most the sum of the retries left |
| WriterLane.LaneEmpties | audit_forwarder.py:2765-2843 | once arrivals stop, the lane takes a bounded number of steps and cannot rest before it is empty |
| WriterLane.FourthWrite | audit_forwarder.py:2717-2718 | an item can fail four writes before it goes to the DLQ, and can be persisted by its fourth |
| WriterLane.DisperseAllSplits | audit_forwarder.py:2714-2763 | a failed batch splits into the items requeued at the tail in order, those that found the queue full and are dropped, and the exhausted ones, which alone reach the DLQ |
| WriterLane.Writer.RequeueOrDlq | audit_forwarder.py:2692-2763 | the loop over the failed batch does that |
| WriterLane.Writer.RecordPersisted | audit_forwarder.py:318-341 | the loop raises the marks to the maxima of the acknowledged items |
| WriterLane.Writer.Fill | audit_forwarder.py:2784-2797 | a batch is the head of the queue, as long as size, arrivals and queue allow |
| WriterLane.Writer.Pass | audit_forwarder.py:2782-2841 | one pass publishes the whole batch or gives all of it back, and spends one write per item |
| WriterLane.Writer.WriterLoop | audit_forwarder.py:2782-2843 | the loop leaves only with queue and batch empty, writes no more than the work it found, and does leave |
| Ledger.RetireKeeps | audit_forwarder.py:3596-3614 | committing from the oldest fetched records leaves nothing unaccounted for below the committed offset |
| Ledger.FetchAllKeeps | audit_forwarder.py:3010-3011 | fetching a batch keeps the order and the account of the records in flight |
| Ledger.CrashKeeps | audit_forwarder.py:1112-1135 | after a crash only what lies below the committed offsets has to stay accounted for |
| Delivery.GateSound | audit_forwarder.py:3540-3549 | flush returning 0 with an unchanged error count means that every ordinary message accepted since the count was read, and every one outstanding then, was delivered, and every DLQ message answered |
| Delivery.Counted | audit_forwarder.py:1024-1042 | accepted messages are the delivered, failed, outstanding and lost ones, counted |
| Delivery.AcceptMeans | audit_forwarder.py:1044-1086 | of the messages of one acceptance the ordinary ones are reported to the counter that the gate looks at and the DLQ records are not; all are outstanding |
| Delivery.ReportMeans | audit_forwarder.py:1016-1042 | a report answers one message, and counts an error if and only if an ordinary message has failed |
| Delivery.GateDelivers | audit_forwarder.py:3540-3549 | of each acceptance since the count was read, the ordinary messages, the first that it puts on the wire, have been delivered when the gate opens |
| Delivery.Producer.SendToDlq | audit_forwarder.py:1044-1071 | one DLQ message is accepted at most, and only when the DLQ is enabled |
| Delivery.Producer.SafeProduce | audit_forwarder.py:1076-1109 | the message is accepted at most once; false exactly when ten attempts in a row found the buffer full, with a DLQ copy then if one is accepted |
| Split.ShortCircuitsExactly | audit_forwarder.py:366-419 | a payload is short-circuited if and only if it is an object that names a method of the noise table, in any case, and carries none of the three forms of a denial, in any case |
| Split.SaysExactly | audit_forwarder.py:404-417 | a value says one of the words of denial whatever the case of its letters |
| Text.FoldsTexts | schema-watcher/watcher.py:323-325 | two texts have one upper and one lower case if and only if they differ in nothing but the case of letters |
| Split.SplitCorrect | audit_forwarder.py:2880-2928 | position by position, a record goes to the bulk queue if and only if it is noise and the queue has room in time; nothing is lost or duplicated, both parts keep their order, no denial is diverted, and each partition is mapped to its highest diverted offset |
| Split.Splitter.SplitNoise | audit_forwarder.py:2880-2928 | the rest is the records that are not noise or find no room, in order; the bulk queue grows by the decoded payloads of the others with their partitions and offsets, in order; the offset map has exactly their partitions, each with its highest offset |
| Batch.FirstGateExactly | audit_forwarder.py:1518-1546 | the first gate opens if and only if nothing is outstanding, no delivery failed and no message met an infrastructure failure |
| Batch.PoisonPillsPass | audit_forwarder.py:3441-3507 | a batch with clean infrastructure is committed past every message it reached, unparsable and raising ones included |
| Batch.TallyMaxima | audit_forwarder.py:3431-3440 | the maxima of a batch are those of all messages it reached, however their handling went |
| Batch.TallyFails | audit_forwarder.py:3124-3135 | a batch fails exactly on a consume error or a refused critical event |
| Batch.TallySignals | audit_forwarder.py:3192-3203 | the signal map holds the highest awaited offset of each partition |
| Batch.TallyUnrecoverable | audit_forwarder.py:3441-3475 | the count of unrecoverable events is the number of messages reached that could not be processed |
| Batch.VectorMeaning | audit_forwarder.py:3599-3614 | the vector covers exactly the partitions with a handled or diverted record, each at one past the highest |
| Batch.BuildVector | audit_forwarder.py:3599-3614 | merging the two maps gives that vector |
| Batch.Processor.HandleTurn | audit_forwarder.py:3124-3507 | one message raises the tallies and the published offset, or is skipped |
| Batch.Processor.HandleBatch | audit_forwarder.py:3106-3507 | the message loop computes the tallies of the batch |
| Routing.PriorityQueues.RouteToQueue | audit_forwarder.py:2608-2680 | critical and high methods go to the critical lane, read-only and authentication methods and validations to the bulk lane, everything else to the normal lane; the event enters that queue only, at its end, if there is room at once or in time; false exactly when the critical queue stays full, and an event dropped elsewhere is reported as routed |
| Offsets.BumpAllIsHighest | audit_forwarder.py:263-267 | a mark is the maximum of the old mark and the recorded offsets of its partition, and one of them |
| Rebalance.RevokeCommitsHandled | audit_forwarder.py:1138-1171 | over any sequence of callbacks and handled messages: a partition is skipped if and only if its latest callback was a revoke, and a revoke commits exactly one past the highest handled offset of the named partitions that have one |
| Rebalance.ProcessedNeverFalls | audit_forwarder.py:3437-3440 | the published offset of a partition never falls |
| Rebalance.EarlierOwnershipIsCommitted | audit_forwarder.py:1152-1165 | a revoke after a reassignment commits the offset of the earlier ownership, a step back exactly if the other owner has come further |
| Rebalance.Callbacks.OnAssign | audit_forwarder.py:1112-1135 | the assigned partitions are no longer skipped |
| Rebalance.Callbacks.OnRevoke | audit_forwarder.py:1138-1183 | the revoked partitions are skipped from now on, and the commit request is as stated above, in the callback's order |
| Rebalance.Callbacks.Publish | audit_forwarder.py:3438-3440 | the published offset is raised, never lowered |
| Rebalance.RequestIsVector | audit_forwarder.py:1158-1165 | the request says of each partition what the state machine commits for it |
| Backpressure.RunKeeps | audit_forwarder.py:2949-3060 | at every loop head: the writer-pressure flag implies the pause flag; the pause flag is the client's pause state unless the resume after a full record queue raised; resumes happen without writer pressure and at most half full, or in a shutdown; drops only in a shutdown |
| Backpressure.DropsNeedShutdown | audit_forwarder.py:3039-3060 | an envelope is dropped only after a shutdown request, and then the loop has ended |
| Backpressure.PausedEnqueuesNothing | audit_forwarder.py:3005-3024 | given that a paused client returns nothing, a round that it spends paused enqueues and drops nothing |
| Backpressure.PressurePauses | audit_forwarder.py:2964-2969 | under writer pressure the consumer pauses, whatever the record queue holds, and the round enqueues and drops nothing |
| Backpressure.PressureEnqueuesNothing | audit_forwarder.py:2949-3003 | after any rounds, a round under writer pressure whose pause does not raise enqueues and drops nothing |
| Backpressure.ReliefResumes | audit_forwarder.py:2970-2997 | relief resumes the consumer if and only if the record queue is less than half full and the resume does not raise |
| Backpressure.FullQueuePauses | audit_forwarder.py:3029-3051 | at a full record queue the consumer pauses, waits and resumes once |
| Backpressure.DrainsToHalf | audit_forwarder.py:3029-3045 | the wait ends as soon as the record queue is half empty, and not before |
| Backpressure.BatchesAreAccounted | audit_forwarder.py:3005-3060 | a batch that the client returns is enqueued or dropped, and nothing else is |
| Backpressure.ShutdownExactly | audit_forwarder.py:2956-3060 | a round ends in a shutdown if and only if there was one, one is requested, or the wait at the full queue ended before it was half empty |
| Backpressure.StrandedLeaves | audit_forwarder.py:2964-2969 | a consumer paused for no reason leaves that state if and only if writer pressure returns and the pause succeeds |
| Backpressure.StrandedStays | audit_forwarder.py:2967-3003 | without renewed pressure it stays paused for ever and enqueues nothing |
| Backpressure.ReliefStrands | audit_forwarder.py:2985-2997 | relieved pressure strands the consumer if and only if the record queue is half full or the resume raises |
| Backpressure.RoomForOneNeverResumes | audit_forwarder.py:2985-2989 | with a record queue of size one relieved pressure never resumes the consumer |
| Backpressure.StrandedIsReached | audit_forwarder.py:2985-2997 | three ordinary rounds reach that state |
| Backpressure.WriterQueuesUnderPressure | audit_forwarder.py:2930-2947 | pressure if and only if some bounded queue holds at least four fifths of its bound |
| Backpressure.Consumer.CheckPressure | audit_forwarder.py:2966-2997 | the pressure check at the loop head; what it does is stated by PressurePauses and ReliefResumes |
| Backpressure.Consumer.WaitWhileFull | audit_forwarder.py:3029-3051 | the pause, the wait and the resume at a full record queue |
| Backpressure.Consumer.OneRound | audit_forwarder.py:2957-3060 | one round of the loop; what it does is stated by PressurePauses, BatchesAreAccounted and ShutdownExactly |
| Backpressure.Consumer.ConsumeThread | audit_forwarder.py:2949-3060 | the loop keeps the invariant over any rounds |
| Buffer.ForcedIsWholeChunks | audit_forwarder.py:1504-1515 | a forced sequential flush writes as many whole chunks as lead with success, or everything |
| Buffer.RetryWritesTwice | audit_forwarder.py:1488-1503 | after an unacknowledged parallel flush and a successful retry, every payload is written exactly once if and only if the first flush stored nothing |
| Buffer.ChunksConcat | audit_forwarder.py:1484 | the chunks concatenate to the buffer, none empty, none too long, all but the last full |
| Buffer.DbBuffer.FlushSequential | audit_forwarder.py:1504-1515 | a prefix of the buffer moves to the table, nothing is lost or written twice; forced, it succeeds exactly when the buffer is empty; unforced, at most one full chunk moves |
| Buffer.DbBuffer.FlushParallel | audit_forwarder.py:1481-1503 | the buffer is cleared if and only if every chunk is acknowledged, and stays whole otherwise |
| Buffer.DbBuffer.Flush | audit_forwarder.py:1462-1515 | the choice between the two, and what holds of both; unforced, exactly one full chunk is written if there is one and its write succeeds; forced and sequential, as many chunks as lead with success |
| Backoff.ClosedForm | audit_forwarder.py:1300-1302 | after n delays the level is min(maximum, initial * 2^n), it never falls, and saturation is permanent |
| Backoff.DelayInRange | audit_forwarder.py:1300-1306 | every delay lies between max(0.1, d(1-r)) and d(1+r) around that level |
| Backoff.RuntimeBackoff.constructor | audit_forwarder.py:1286-1295 | the parameters are clamped and the level is the first |
| Backoff.RuntimeBackoff.Reset | audit_forwarder.py:1297-1298 | the level is the first again |
| Backoff.RuntimeBackoff.NextDelay | audit_forwarder.py:1300-1306 | the n-th delay since a reset is the n-th level with its jitter |
| Grouping.GreedyIsOptimal | frontend/components/AuditEventTable.tsx:115-131 | for all events, in any order and with invalid timestamps among them, no division into consecutive runs that share a key and stay within an hour of their first event has fewer groups |
| Grouping.GreedyIsPartition | frontend/components/AuditEventTable.tsx:115-131 | the grouping is such a division itself |
| Grouping.GroupsCorrect | frontend/components/AuditEventTable.tsx:94-131 | the groups concatenate to the input in order, share a key, stay within the hour of their first event and are maximal |
| Grouping.IdsDiffer | frontend/components/AuditEventTable.tsx:119-129 | the ids of the groups are distinct if no two events agree in key and time |
| Grouping.IdsDifferExactly | frontend/components/AuditEventTable.tsx:91-129 | for events newest first with valid timestamps, the ids are distinct if and only if no event that opens a group is followed at the same instant by one of another key and then by one of its own |
| Grouping.IdsCanClash | frontend/components/AuditEventTable.tsx:119-129 | an event of another key at the same time divides two groups with one id |
| Grouping.GroupConsecutive | frontend/components/AuditEventTable.tsx:115-131 | the loop computes these groups: the input in order, each within its hour and as long as can be, and no division into runs has fewer |
| Classifier.ClassificationCorrect | schema-watcher/watcher.py:296-470 | the four lists divide the input, each in its order; LOW holds no deletion, removal, purge or drop, MEDIUM only those of offsets |
| Classifier.CaseBlind | schema-watcher/watcher.py:323-325 | two names that differ in nothing but the case of their letters have one level |
| Classifier.DeleteTopicsIsCritical | schema-watcher/watcher.py:426-434 | the deletion of topics is CRITICAL, however its name is spelled |
| Classifier.PunctuationVanishes | schema-watcher/watcher.py:326 | an underscore, a hyphen or a dot anywhere in a name changes nothing in the name without punctuation |
| Classifier.LevelExactly | schema-watcher/watcher.py:331-463 | for every name, exactly when it is CRITICAL, HIGH and LOW, in terms of the entities and operations it names; MEDIUM otherwise |
| Classifier.UnderscoresAreRedundant | schema-watcher/watcher.py:332-350 | the spellings with underscores add nothing to the checks on the name without punctuation |
| Classifier.DeletionsExactly | schema-watcher/watcher.py:331-434 | for every name: a deletion, removal, purge or drop is CRITICAL if and only if no earlier check makes it HIGH and it is not a plain offset deletion, HIGH if and only if an earlier check does, MEDIUM if and only if it is a plain offset deletion |
| Classifier.AclChangesExactly | schema-watcher/watcher.py:393-398 | for every name: an ACL change is CRITICAL if and only if it deletes and a service account, an identity or a network claims the name first, and HIGH otherwise |
| Classifier.LevelByClaim | schema-watcher/watcher.py:331-430 | the first entity that claims a name decides its level |
| Classifier.DeletionsCanBeHigh | schema-watcher/watcher.py:331-334 | there is a deletion that is HIGH |
| Classifier.AclChangesCanBeHigh | schema-watcher/watcher.py:393-398 | there is an ACL change that is HIGH |
| Classifier.ContainsMeans | schema-watcher/watcher.py:332-463 | the substring test |
| Classifier.ClassifyNewMethods | schema-watcher/watcher.py:296-470 | the four lists divide the methods, each in the order of the input, and each method stands in the list of its level |
| MethodsFile.BucketsAccumulate | schema-watcher/watcher.py:513-521 | over any sequence of calls, a bucket holds what it held at the start and everything supplied by the calls that took effect |
| MethodsFile.ReplaysFromAnyMoment | schema-watcher/watcher.py:524-528 | from any moment on whose additions the log still holds, replaying them on the buckets of that moment gives the buckets of now |
| MethodsFile.EntriesAreNews | schema-watcher/watcher.py:516-522 | a log entry has the time of its call and holds exactly the supplied methods that were not known |
| MethodsFile.LogIsBounded | schema-watcher/watcher.py:527-528 | the log holds at most a hundred entries once anything was added |
| MethodsFile.DataFile.MergeLevels | schema-watcher/watcher.py:508-528 | the loop over the levels computes the merge |
| MethodsFile.DataFile.Update | schema-watcher/watcher.py:472-545 | the file is replaced if and only if the call is no dry run, brings a method, targets no .py file and can be saved; it raises exactly for a .py file or a failed save; otherwise the file stays; the new file has the time of the call, the buckets with everything supplied at the four levels, and in the log an entry with exactly the news |

## Left out

- Kafka, Postgres and the clock: `produce`, `flush`, `commit`, `pause`, `resume`, `poll` and the writes
  are steps or parameters with any outcome. A batch write that reports success has inserted all its
  rows, one that reports failure none; only the parallel buffer flush distinguishes the report from what
  is in the table. Timeouts are steps without a deadline.
- Handling one event: parsing, normalizing, tables of methods, anomaly detection, alerts, the topic
  router and the product store are one outcome, good, unparsable or raising, with the number of its
  produces. The DLQ record of a router error is not counted.
- Rebalanced partitions: the theorems about committed offsets speak of partitions that have not been
  revoked since the start of the run. Other members of the group act on revoked ones, and when one comes
  back to the same process its marks and published offsets are those of the earlier ownership: what the
  barrier then proves is refuted by `RebalanceWitness.LaterOwnershipPasses`.
- Theorems.AtLeastOnce: its condition on the steps is sufficient, not necessary, because a record that was
  blamed may become durable later; `Theorems.AtLeastOnceExactly` is the exact statement.
- Theorems.StrictMode: one direction, for each event; `Theorems.StrictModeExactly` is the exact statement.
- Theorems.NoiseBarrierExact: between an insert and its publication only one direction holds
  (`Barrier.BarrierSound`), so that moment is excluded.
- Revocation.SafeRevokeExactly: what a new owner does after the revoke is not modelled.
- Grouping.IdsDiffer: the condition is sufficient, for events in any order; `Grouping.IdsDifferExactly` is
  exact for the order in which the table shows them.
- Backpressure.PausedEnqueuesNothing: that a paused client returns nothing is assumed of librdkafka.
- The final ungated commit at shutdown (`audit_forwarder.py:3864-3881`): a run ends in a crash instead.
- Retention: the log keeps every record, so `earliest` starts at offset 0.
- Protocol.Next: the consumer may consume whether or not it is paused, so the protocol's runs include
  those of every backpressure behaviour.
- Delivery.GateSound: messages are numbered in the order of acceptance and a report names its message;
  librdkafka's internal retries are not modelled.
- Classifier.CaseBlind: letters outside ASCII have no case.
- Split.ShortCircuitsExactly: letters outside ASCII have no case, and numbers are reals; a payload that
  itself has a field such as `_short_circuit` is not modelled.
- WriterLane.Writer.WriterLoop: items that are not dictionaries, which `_requeue_or_dlq` skips, do not
  occur in the queues.
- Buffer.DbBuffer.FlushParallel: the chunks are appended to the table in the order of the buffer, while
  the executor may finish them in any order.
- Backpressure.WriterQueuesUnderPressure: `int(maxsize * 0.8)` is taken as exact arithmetic. Partitions
  assigned while the consumer is paused are not modelled.
- Backoff.RuntimeBackoff.NextDelay: floating point is taken as real arithmetic.
- Grouping.GroupConsecutive: the display key is a string; how it is put together from the event's fields
  is not modelled.
- MethodsFile.DataFile.Update: bucket lists are sets, their sorted order is not modelled, and reading and
  writing the file succeed or fail as a whole.
- Metrics, health server, logging, maintenance ticks, IAM backfill, catalog writer, scraping, Slack,
  installer, reports and the rest of the frontend: input, output and thin wrappers.
