# Storage monitoring: a verified model

A storage-monitoring server collects telemetry from Macs, keeps a small amount of state about each
source, and raises concerns that may end in a text message. Its value lies in never claiming more
than the evidence supports. This project models the parts of the server (and of its NFS helper and
web client) where that promise is hard to keep, and proves it.

The conventions are the same throughout. A section that runs under the writer lock and one SQL
transaction is one atomic step, tables are maps, identities drawn at random are numbers never drawn
before, fingerprints are injective. Each operation has a specification function on values; the classes are
the field-by-field implementations, in the order the source updates things, proved to do exactly
what the specification says; the theorems are about the specification, over every run.

| part | modules | class or methods |
|---|---|---|
| activity detector | NearestRank, TrainingRing, TrainingSummary, ActivityDetector, ActivityRuns, ActivityTraining, ActivityGate | ActivityDetector.SourceState |
| SMS outbox and attention episodes | Outbox, Attention, DeliveryInvariant, AdmissionRetry, AttentionInvariant, DeliveryRuns, DeliveryAnswers, DeliveryTurns, EpisodeRules, EpisodeAnswers, AcknowledgedRows | DeliveryStore.Store |
| disk ownership and inventory graphs | Graph, Ownership, DiskIndex, DiskStacks, TopologicalVisit, InventoryOrder, Text | worklist methods |
| out-of-order telemetry | CounterSeries, Telemetry, TelemetryRuns, TelemetryAnswers | TelemetryStore.Ingest |
| collector protocol | RetainedGraph, InventoryRecords, CollectedItems, Collector, CollectorRuns, CollectorAnswers, RetainedReading | CollectorStore.Working, CollectorStore.Node, MetricRouting.Store |
| USB watch | WatchRuns, WatchShows, WatchIngest, WatchAnswers, UsbEpisodes, ConnectionLoss | DeviceWatch.Watch |
| exports file | SplitLines, ManagedBlock, BlockLines, ExportLine, ExportReading | ExportsFile.ExportsFile |
| frozen pagination | CursorText, PageRuns | PageCache.Cache, Traversal.ApiClient |
| health rules and workload bands | HealthAnswers, WorkloadBands | HealthRules.SourceState |
| rollup | RollupAnswers | Rollup.Store |

For each operation one module states what it does in the words of its inputs alone: the replies of the
provider, the observations, the relationships an inventory lists, the samples, the heartbeats, the
requests. Those statements (`DeliveryAnswers`, `EpisodeAnswers`, `ActivityGate`, `DiskStacks`,
`TelemetryAnswers`, `CollectorAnswers`, `WatchAnswers`, `PageRuns`, `ExportReading`, `HealthAnswers`,
`RollupAnswers` and their neighbours) repeat no constant, threshold or table of the specification by
name, so a wrong one cannot stand on both sides.

Some statements hold only under a condition, which is part of the result:

* A sample can be pruned before any rollup counted it: when it is accepted almost 24 hours old
  (`Rollup.LateRowLost`), or when no pass is made for a day (`Rollup.NoPassLost`).
  `Rollup.CountedWhen` says exactly which rows a bucket counts after any run, and
  `Rollup.LostForGood` that a row pruned unseen stays uncounted.
* The rate of a counter can average over failed attempts, because a failed attempt at a field is
  stored under another name than its live readings, or nowhere at all.
  `MetricRouting.ReadBytesSpanFailure` is the shortest run, and `MetricRouting.RateSpansFailures`
  says exactly when it happens: always, unless one of the attempts lists the field under a name that
  has no alias and was not delivered late.
* A text message of an acknowledged episode can be sent again after a late 429.
  `AcknowledgedRows.AcknowledgedRowSentAgain` is such a run;
  `AcknowledgedRows.AcknowledgementLostWhen` and `AcknowledgedRows.SentAgainNeedsChange` say that
  it takes a fresh change of severity, for better or worse, which is what ends an acknowledgement.
* A batch or heartbeat sent again never changes anything, but it does not always get its first answer
  again. `TelemetryRuns.ReplayIsIdempotent`: a batch does as long as its times validate, because its
  receipt outlives them. `CollectorRuns.ReplayChangesNothing`: a heartbeat does until maintenance has
  deleted its receipt.
* Immutable collector items are projected once per record, and a record lives 30 days
  (`CollectorRuns.ProjectedApart`). One held unprojected until then is projected twice within a
  millisecond (`CollectorRuns.ProjectedAgainSoon`), and an event dated ahead of the server's clock is
  stored twice when it is sent again after 30 days (`CollectorRuns.EventStoredAgain`);
  `CollectorRuns.StoredAgainNeeds` says what it takes.
* The exports helper strips a block whose begin line ends in several carriage returns, but teardown
  does not see such a block and leaves it. `ExportsFile.UnseenBlock` is such a file;
  `ExportsFile.ShownBlocks` says exactly which blocks are seen.
* Ownership is exact unless a traversal hits the limit of 4096 nodes; only an object above which
  there are more than that can hit it, and the limit is then recorded (`Ownership.Membership`).
* The retry selection is limited to 10 000 intents; it is complete because there are never more
  episodes (`AdmissionRetry.SelectionIsComplete`, `DeliveryRuns.AlwaysBounded`).

## Model

| member | source | states |
|---|---|---|
| `DeliveryRuns.AtMostOncePerRow` | server/src/notifications.rs:317-520 | In every interleaving of claims, requests, records, lost records, crashes, restarts, evaluations, acknowledgements, reconfigurations and reconciliations: of all requests to send one outbox row, every one but the last was answered by an explicit 429. |
| `DeliveryRuns.AtMostOncePerTransition` | server/src/notifications.rs:129-179 | The same per episode revision, even when the row was evicted and forgotten in between: no concern is announced twice. |
| `DeliveryRuns.AttemptsAndSpacing` | server/src/notifications.rs:450-515 | At most four requests per row, never more than its recorded attempts, and any two send claims at least 30 s apart. |
| `DeliveryRuns.PollsNeverPost` | server/src/notifications.rs:463-502 | A poll always carries a well-formed message sid, so it can never turn into a request to send. |
| `DeliveryRuns.OnlySendsPost` | server/src/notifications.rs:489-502 | For whatever job the worker holds, the provider call is a POST if and only if the job is a send. |
| `DeliveryRuns.AlwaysBounded` | server/src/notifications.rs:129-179 | In every run: at most 1000 rows, at most 10 000 episodes, one open episode per source key, one row per episode revision. |
| `DeliveryRuns.NextOk` | server/src/notifications.rs:414-520 | Every step, by the worker or beside it, keeps the invariant of tables, worker phase and sent requests. |
| `DeliveryRuns.ClaimOk` | server/src/notifications.rs:419-487 | A whole claim (sweep, retry, selection) keeps that invariant, whichever row it selects. |
| `DeliveryRuns.SaveOk` | server/src/notifications.rs:503-519 | Recording an answer keeps it, although anything may have happened to the row and its episode since the claim. |
| `DeliveryAnswers.DeliveredWhen` | server/src/notifications.rs:305-410 | In every run a row is delivered if and only if a recorded 2xx answer under its own sid said "delivered". |
| `DeliveryAnswers.FailedWhen` | server/src/notifications.rs:436-519 | It has failed if and only if an answer refused it with a 4xx other than 429 or said "failed", "undelivered" or "canceled" under its sid, its fourth request was throttled too, or a claim found it queued for more than a day. |
| `DeliveryAnswers.RepeatsAfterPause` | server/src/notifications.rs:503-515 | In every run a throttled request is claimed again only after one, two and then four minutes. |
| `DeliveryAnswers.RecordFollows` | server/src/notifications.rs:503-519 | The state, the sid and the next attempt that are recorded, told from the answer and the number of attempts; no other row changes. |
| `DeliveryAnswers.RecordNotes` | server/src/notifications.rs:325-519 | What is noted with an answer: the word of the provider unless it is too long, and the reason, told from the answer; nothing else of the row changes. |
| `DeliveryTurns.ClaimPicks` | server/src/notifications.rs:441-487 | A claim picks the first queued row that is due under the present settings for an open, unacknowledged episode, if notifications are on, both numbers are set and the last send is half a minute old; else the first accepted row that is due; else nothing. It changes that row only. |
| `DeliveryTurns.RetryOrder` | server/src/notifications.rs:180-186 | The intents are retried in the order in which they began to wait, and only the first 10 000 are. |
| `DeliveryTurns.LimitShown` | server/src/notifications.rs:163-237 | After a retry the settings show a limited admission if they did before or an intent is left waiting, and nothing else of them changes. |
| `DeliveryTurns.TurnExactly` | server/src/notifications.rs:187-219 | An intent that is not wanted any more is given up with the first reason that applies, in the order of the checks. |
| `DeliveryTurns.ConfigureExactly` | server/src/notifications.rs:35-86 | Settings are taken if and only if they name the present revision and usable numbers; then every queued row and pending intent is withdrawn. |
| `DeliveryTurns.AcknowledgeExactly` | server/src/attention.rs:244-288 | An acknowledgement is taken if and only if it names the present revision of an open episode; then nothing about it waits any more. |
| `DeliveryInvariant.CapacityIsActiveRows` | server/src/notifications.rs:149-157 | Eviction fails to make room if and only if all 1000 rows are unfinished. |
| `DeliveryInvariant.MakeRoomKeeps` | server/src/notifications.rs:152-156 | Making room never removes or changes a queued, sending or accepted row. |
| `DeliveryInvariant.AdmitOk` | server/src/notifications.rs:129-179 | A revision never admitted before gets a row if and only if fewer than 1000 rows are unfinished; otherwise it leaves one intent. Either way the invariant holds and history only grows. |
| `AdmissionRetry.RetryAdmitsLongestPrefix` | server/src/notifications.rs:180-237 | A retry admits exactly the longest prefix of still wanted intents for which there is room, in (created_at, id) order; the first and every later one that finds none stays pending with its creation time; admitted rows keep theirs. |
| `AdmissionRetry.RetryEachOk` | server/src/notifications.rs:186-234 | The retry loop keeps the invariant, touches no episode it did not select, and keeps every unfinished row as it was. |
| `AdmissionRetry.RetryPendingOk` | server/src/notifications.rs:180-237 | The whole retry keeps the invariant, every unfinished row, and all settings but the limit flag. |
| `AdmissionRetry.SelectionIsComplete` | server/src/notifications.rs:185-185 | Below the episode limit the selection contains exactly the pending intents. |
| `Outbox.InOrderKeys` | server/src/notifications.rs:185-185 | The (time, id) order used for every selection lists each key once, strictly ascending. |
| `EpisodeRules.OnlyFreshRecoveryCloses` | server/src/attention.rs:65-70 | In every run an episode is closed only by a fresh resolved evaluation of its own source key. |
| `EpisodeRules.ResolvedStaysResolved` | server/src/attention.rs:48-75 | A resolved episode never reopens, and its identity is never drawn again, not even after it was deleted. |
| `EpisodeRules.StaleEvidenceKeepsConcern` | server/src/attention.rs:65-97 | Evidence that is not fresh leaves an open episode open with its severity, revision, acknowledgement and intent, touches no other episode and no row. |
| `EpisodeRules.NeverSentAfterResolution` | server/src/notifications.rs:454-518 | Once its episode has resolved, a row is never claimed for sending again, however late a 429 puts it back into the queue. |
| `EpisodeAnswers.OpenExactly` | server/src/attention.rs:65-154 | A concern that stays open: its episode is written, and a notification is asked for if and only if it is new or of a newly observed severity, no mere information and not paired with an open concern about the same loss, or may take over one that was handed to it. |
| `EpisodeAnswers.RecoveryExactly` | server/src/attention.rs:132-179 | A recovery closes the episode, withdraws what waits for it and, if its notification was still to come, hands it to the first concern that had left its own to this one. |
| `EpisodeAnswers.NextFollows` | server/src/attention.rs:65-131 | Every field of the episode written, and which concern it is paired with: the one first seen. |
| `EpisodeAnswers.EnqueueNotifies` | server/src/notifications.rs:108-179 | A transition is notified once: by the row it has, by a new one, for which a full outbox gives up its oldest finished row, or by an intent while all rows are unfinished. |
| `EpisodeAnswers.ObserveOpen` | server/src/attention.rs:48-75 | A condition is about the open episode of its key. |
| `EpisodeAnswers.ObserveNew` | server/src/attention.rs:49-64 | Without one it opens one if it says open and there are fewer than 10 000. |
| `EpisodeAnswers.RetentionExactly` | server/src/attention.rs:456-462 | Which rows and episodes are kept: unfinished or changed in the last thirty days; open, resolved in the last thirty days or with a row. |
| `EpisodeAnswers.ForgetExactly` | server/src/attention.rs:588-593 | Which concerns become unknown when their source was not observed. |
| `AcknowledgedRows.SentAgainNeedsChange` | server/src/notifications.rs:454-518 | In every run, after an acknowledgement no row of the episode is claimed for sending, whenever a 429 put it back, unless a fresh evaluation changed the severity in between. |
| `AcknowledgedRows.AcknowledgementLostWhen` | server/src/attention.rs:76-97 | In every run the acknowledgement of an open episode is lost exactly at a fresh evaluation of its own source key that changes its severity. |
| `AcknowledgedRows.AcknowledgedRowSentAgain` | server/src/notifications.rs:503-518 | Such a run: acknowledged while the request is under way, put back by a 429, and claimed again once a fresh evaluation has changed the severity. |
| `AttentionInvariant.ObserveConditionOk` | server/src/attention.rs:32-185 | Evaluating any condition, with its correlation, transfer and hand-over branches, keeps the delivery invariant. |
| `AttentionInvariant.NotifiedOk` | server/src/attention.rs:138-154 | Announcing a transition or a resumed transfer keeps the invariant, and never enqueues for an episode that is not open. |
| `AttentionInvariant.PassOnOk` | server/src/attention.rs:158-179 | Handing an undelivered notification to the correlated episode keeps the invariant: the heir's revision had not been admitted. |
| `AttentionInvariant.AcknowledgeOk` | server/src/attention.rs:244-288 | Acknowledgement keeps the invariant. |
| `AttentionInvariant.ConfigureOk` | server/src/notifications.rs:35-86 | Reconfiguration keeps the invariant, accepted or refused. |
| `AttentionInvariant.RetainOk` | server/src/attention.rs:456-462 | Retention and the retry after it keep the invariant: every row still has its episode, and no claimed or accepted row is touched. |
| `AttentionInvariant.ForgetOk` | server/src/attention.rs:588-593 | Marking unobserved sources unknown keeps the invariant. |
| `DeliveryStore.Store.SelectFirst` | server/src/notifications.rs:459-466 | The loop finds the first key in (time, id) order, or that there is none. |
| `DeliveryStore.Store.Admit` | server/src/notifications.rs:129-179 | The table updates are exactly the specified admission. |
| `DeliveryStore.Store.SelectPending` | server/src/notifications.rs:185-185 | The selection loop returns the pending intents in order, cut at 10 000. |
| `DeliveryStore.Store.RetryOne` | server/src/notifications.rs:187-233 | One round of the retry loop does what the specification does for the first intent, and says whether to go on. |
| `DeliveryStore.Store.RetryPending` | server/src/notifications.rs:180-237 | The loop with its early exit is the specified retry. |
| `DeliveryStore.Store.Configure` | server/src/notifications.rs:35-86 | Succeeds exactly on a matching revision with acceptable numbers; a refusal changes nothing. |
| `DeliveryStore.Store.Claim` | server/src/notifications.rs:419-487 | The first half of a step commits exactly the specified tables and job. |
| `DeliveryStore.Store.ClaimDue` | server/src/notifications.rs:450-484 | The selection prefers a due send, otherwise the first due poll, otherwise does nothing. |
| `DeliveryStore.Store.Record` | server/src/notifications.rs:503-519 | The second half of a step records exactly the specified row. |
| `DeliveryStore.Store.Acknowledge` | server/src/attention.rs:244-288 | Succeeds exactly on the current revision of an open episode. |
| `DeliveryStore.Store.ObserveCondition` | server/src/attention.rs:32-185 | The evaluation with its lookups is the specified one. |
| `DeliveryStore.Store.Evaluate` | server/src/attention.rs:65-179 | The same for the episode it settled on. |
| `DeliveryStore.Store.IsUndelivered` | server/src/attention.rs:132-135 | Decides whether the notification of a recovering episode is still owed. |
| `DeliveryStore.Store.HandOver` | server/src/attention.rs:158-179 | Passes an owed notification to the correlated episode. |
| `ActivityRuns.OpeningNeedsSustainedHigh` | server/src/detection.rs:391-476 | In every run a finding opens only at the end of a gap-free chain of observations of one domain, each link 1-15 s long and above the threshold frozen from the training at the first link; the chain spans at least 120 s and less than 135 s, and the evidence reports that span. |
| `ActivityRuns.ResolutionNeedsSustainedLow` | server/src/detection.rs:391-476 | A finding resolves only at the end of such a chain at or below its frozen recovery threshold, of at least 60 s and less than 75 s, during all of which it was open. Failures, gaps, resets and rebaselines never resolve it. |
| `ActivityRuns.SustainedHighOpens` | server/src/detection.rs:391-476 | Conversely, with ready training, such a chain opens a finding at the very observation that completes 120 s. |
| `ActivityTraining.ClosingTeaches` | server/src/detection.rs:391-476 | In every run an interval that closes outside an episode and is not elevated becomes the newest of the training ring, with its endpoints' times and the counter difference by the time difference as its rate; an elevated one begins an episode; inside one nothing is learned. |
| `ActivityTraining.TrainingBecomesReady` | server/src/detection.rs:540-607 | A gap-free chain of at least 60 calm intervals covering 600 s within the last 1800 s gives a ready reference. |
| `ActivityTraining.TrainedThenHighOpens` | server/src/detection.rs:391-476 | End to end: after such a chain, 120 s above three times the reference and a megabyte per second above it open a finding. |
| `ActivityTraining.OpeningInNumbers` | server/src/detection.rs:391-476 | A finding opens only on speeds each above three times the reference and a megabyte per second above it. |
| `ActivityTraining.ResolutionInNumbers` | server/src/detection.rs:391-476 | It resolves only on speeds each at most twice the reference or at most half a megabyte per second above it. |
| `ActivityGate.ObservationExactly` | server/src/detection.rs:230-345 | What any observation does: nothing if it was overtaken; a break if it cannot prove that its domain is the present one; else it is taken, after the end of everything learned if it belongs to another domain. |
| `ActivityGate.LinkedExactly` | server/src/detection.rs:308-360 | Which two observations make an interval: both usable and timely, of one domain, one to fifteen seconds apart, received in order within fifteen seconds, the counter not falling. |
| `ActivityGate.EvidenceExactly` | server/src/detection.rs:391-476 | What a closed interval does to an episode: first, latest and peak evidence, both times, and how a finding opens, goes on and is resolved. |
| `ActivityGate.RebaselineExactly` | server/src/detection.rs:513-527 | A rebaseline ends everything and starts the next revision, for the two supported reasons and while revisions are left. |
| `ActivityRuns.TrackAll` | server/src/detection.rs:230-526 | At every moment of every run the elevated and recovery times of the episode are the spans of chains of observations. |
| `ActivityRuns.OtherSteps` | server/src/detection.rs:480-526 | An event that does not close an interval either changes nothing or leaves no streak, resolves nothing and opens nothing. |
| `ActivityDetector.ObservedOk` | server/src/detection.rs:230-478 | Every observation keeps the detector's invariant: ring, frozen thresholds, watermark, bounded streaks. |
| `ActivityDetector.AdvancedOk` | server/src/detection.rs:391-476 | One usable interval keeps it; the thresholds the code expects to be present are. |
| `ActivityDetector.PruneForward` | server/src/detection.rs:308-310 | Whatever passes the admission gate leaves a ring that fits the window ending at the new watermark. |
| `ActivityDetector.SourceState.Observe` | server/src/detection.rs:230-478 | The in-place updates leave exactly the specified state and findings, keep the invariant, and keep the byte count exact unless it is still unknown after a restore. |
| `ActivityDetector.SourceState.Accept` | server/src/detection.rs:296-341 | The part past the admission gate. |
| `ActivityDetector.SourceState.Measure` | server/src/detection.rs:342-390 | The interval between two endpoints, or the reason there is none. |
| `ActivityDetector.SourceState.Advance` | server/src/detection.rs:391-476 | The episode arithmetic; both saturating sums and both thresholds. |
| `ActivityDetector.SourceState.ChangeDomain` | server/src/detection.rs:273-280 | A proven change of identity ends the episode without recovery and starts a revision, unless none is left. |
| `ActivityDetector.SourceState.BreakInterval` | server/src/detection.rs:480-494 | A pending candidate is dropped, an open finding loses only its recovery streak. |
| `ActivityDetector.SourceState.Interrupt` | server/src/detection.rs:496-511 | Ends an open finding as interrupted, never as resolved. |
| `ActivityDetector.SourceState.Rebaseline` | server/src/detection.rs:513-526 | Succeeds exactly for a supported reason with a revision left; a refusal changes nothing. |
| `ActivityDetector.SourceState.PruneBaseline` | server/src/detection.rs:540-567 | Leaves the newest part of the window that fits, and an exact byte count, also when the count was not yet known. |
| `ActivityDetector.SourceState.ExpireAndClip` | server/src/detection.rs:544-555 | What is left is the ring clipped to the window. |
| `ActivityDetector.SourceState.PartitionPoint` | server/src/detection.rs:544-546 | The binary search finds the first interval that reaches past the cutoff. |
| `ActivityDetector.SourceState.DropToFit` | server/src/detection.rs:560-566 | Drops the oldest until count and bytes fit, and no more. |
| `ActivityDetector.SourceState.Restore` | server/src/detection.rs:210-224 | A persisted state read back satisfies the invariant although its byte count is zero. |
| `TrainingRing.RingCoversAtMostHorizon` | server/src/detection.rs:540-567 | A ring that satisfies the invariant covers at most 1800 s. |
| `TrainingRing.PrunedOk` | server/src/detection.rs:540-567 | Pruning any ordered ring gives sorted, disjoint, non-empty intervals inside the window, at most 1800 of them, at most 256 KiB of JSON. |
| `TrainingRing.NewestFittingIsLongest` | server/src/detection.rs:556-566 | What is kept is a suffix that fits, and no longer suffix fits. |
| `TrainingRing.PrunedIdempotent` | server/src/detection.rs:540-567 | Pruning a ring that is in order changes nothing. |
| `TrainingRing.WindowedIsDropAndClip` | server/src/detection.rs:544-555 | Dropping the expired prefix and clipping one survivor is the same as clipping every interval to the window. |
| `TrainingRing.ThresholdsOrdered` | server/src/detection.rs:569-607 | Both thresholds exist exactly when training is ready, and recovery is strictly below onset. |
| `TrainingRing.SummaryUnique` | server/src/detection.rs:569-607 | The declarative summary of a ring determines every field. |
| `TrainingRing.SummaryExists` | server/src/detection.rs:569-607 | Every ring has one. |
| `TrainingRing.CollectWeights` | server/src/detection.rs:572-583 | The loop weighs every interval by its time inside the window. |
| `TrainingRing.BaselineSummary` | server/src/detection.rs:569-607 | The code's sort and scan computes that summary. |
| `TrainingSummary.PrunedInNumbers` | server/src/detection.rs:540-567 | Of a ring in order the newest intervals of the last half hour are kept, clipped to it, as many as are no more than 1800 and no more than 256 KiB when written as a JSON array. |
| `TrainingSummary.ReadyExactly` | server/src/detection.rs:569-607 | Training is ready if and only if 60 intervals and ten minutes of it are in the last half hour; both thresholds in numbers. |
| `TrainingSummary.ReferenceExactly` | server/src/detection.rs:569-607 | The reference is the one rate of an interval with at most a twentieth of the time spent above it and more than a twentieth at it or above. |
| `NearestRank.FindP95` | server/src/detection.rs:584-591 | The rate found is the duration-weighted 95th percentile of the unsorted sample: less than 95 % of the time strictly below it, at least 95 % at or below. |
| `NearestRank.P95Unique` | server/src/detection.rs:584-591 | There is at most one such rate. |
| `NearestRank.P95Exists` | server/src/detection.rs:584-591 | There is one whenever any time is covered. |
| `NearestRank.P95OfBag` | server/src/detection.rs:584-591 | It does not depend on the order of the training. |
| `Ownership.Membership` | server/src/disk_view.rs:289-367 | The three passes give no disk to an object above which there is a cycle, and to any other exactly the disks it reaches; the cycle reason is recorded exactly for the former. Only an object from which more than 4096 others can be reached hits the limit, and even then no wrong disk is shown. |
| `Ownership.CollectRoots` | server/src/disk_view.rs:290-314 | The worklist terminates; it finds exactly the reachable disks unless it stops at the limit, which takes more than 4096 reachable nodes and is certain if that many are no disks. |
| `Ownership.IsCyclic` | server/src/disk_view.rs:316-340 | The worklist terminates and decides whether the object is on a cycle. |
| `Ownership.ReachesAny` | server/src/disk_view.rs:347-367 | The worklist terminates and decides whether a cyclic object is reachable. |
| `Ownership.TaintedMeets` | server/src/disk_view.rs:341-367 | Reaching a node recorded as cyclic is the same as reaching some cycle. |
| `Graph.ClosedReach` | server/src/disk_view.rs:294-312 | A set closed under parents contains everything reachable from it: why an empty worklist is complete. |
| `DiskIndex.BuildIndex` | server/src/disk_view.rs:180-367 | From any objects: edges, parents, membership and reasons are related as specified, for every relationship of every owned object. |
| `DiskIndex.Project` | server/src/disk_view.rs:273-367 | From any admissible edges it computes their parent graph and ownership exact up to the recorded limit. |
| `DiskIndex.Relate` | server/src/disk_view.rs:205-272 | The two nested loops give the edges and reasons of all relationships in order. |
| `DiskIndex.Resources` | server/src/disk_view.rs:188-198 | A resource name resolves to the last object, in id order, that claims it. |
| `DiskIndex.EdgesAreAdmissible` | server/src/disk_view.rs:215-271 | A relationship becomes an edge if and only if some claim of it has both endpoints here, an admissible kind and one coherent context. |
| `DiskIndex.LastAdmissibleWins` | server/src/disk_view.rs:270-270 | Of several such claims, the last one is the edge. |
| `DiskIndex.ParentGraph` | server/src/disk_view.rs:273-287 | The parents of an object are exactly the far ends of its edges, containment reversed. |
| `DiskIndex.NoPhysicalChild` | server/src/disk_view.rs:79-110 | No admissible edge gives a physical disk a parent: why traversal may stop at disks. |
| `DiskIndex.TopologyOk` | server/src/disk_view.rs:79-110 | So the parent graph satisfies what the ownership passes rely on. |
| `DiskIndex.ExclusivePoolOneDisk` | server/src/disk_view.rs:453-472 | A pool is shown as exclusive to a disk if and only if that is the only disk it reaches, nothing above it is cyclic and nothing is recorded against it. |
| `DiskIndex.PoolNotExclusiveToTwo` | server/src/disk_view.rs:453-472 | No pool is exclusive to two disks. |
| `DiskIndex.ResolvedTargets` | server/src/disk_view.rs:510-546 | A resolved driver is attached to this disk only. |
| `DiskIndex.ResolvedDriverOneDisk` | server/src/disk_view.rs:510-546 | No driver is resolved for two disks. |
| `DiskIndex.ResolvedDriverBelongs` | server/src/disk_view.rs:510-558 | On nodes of any size, a driver resolved for a disk is owned by exactly that disk, so its traffic is never another disk's. |
| `DiskIndex.DriverParents` | server/src/disk_view.rs:100-105 | The parents of a controller are exactly the disks it is attached to. |
| `DiskStacks.Build` | server/src/disk_view.rs:180-367 | The index built for any objects of any node is what the statements about stacks below are about. |
| `DiskStacks.EdgesAreStanding` | server/src/disk_view.rs:79-111 | There is an edge of an id if and only if a relationship with that id stands, the last listed whose ends exist, are of the kinds that may rest on each other that way round and were acquired together; it is stale if and only if anything about it is out of date. |
| `DiskStacks.RestsAreParents` | server/src/disk_view.rs:273-293 | An object's parents are exactly what it rests on by some relationship that stands. |
| `DiskStacks.BelongsExactly` | server/src/disk_view.rs:294-367 | From the listed relationships alone: an object belongs to a disk if and only if a stack of relationships leads down to it and none leads into a loop; only an object above more than 4096 others may be given fewer. |
| `DiskStacks.ReasonsExactly` | server/src/disk_view.rs:205-260 | What is recorded against an object: no context, a relationship with an end that is not there, or one that would hold but was not acquired with its ends. |
| `DiskStacks.ExclusiveExactly` | server/src/disk_view.rs:453-472 | A pool is exclusive to a disk if and only if that is the one disk it stands on, not in a loop, with nothing recorded. |
| `DiskStacks.DriverExactly` | server/src/disk_view.rs:499-546 | Which driver's counters are shown: the one current attachment of the disk, if it is the only one and the driver has no other disk. |
| `DiskStacks.LayersBelong` | server/src/disk_view.rs:79-110 | On a node collected in one go: a partition, a pool on it, its file system, a local mount, a snapshot and the driver all belong to the disk under them. |
| `DiskStacks.PoolBelongs` | server/src/disk_view.rs:453-472 | There the pool is the disk's alone, unless it stands on another disk too, in a loop, or lists an end that is not there. |
| `TopologicalVisit.Visit` | server/src/model.rs:291-309 | The queue terminates; every node is visited if and only if the graph is acyclic, and the visited nodes are in topological order. |
| `TopologicalVisit.Ready` | server/src/model.rs:291-295 | The queue starts with exactly the nodes without parents, each once. |
| `TopologicalVisit.Release` | server/src/model.rs:299-307 | Decrementing the children keeps every degree equal to the number of unvisited parents and queues exactly those that became free. |
| `TopologicalVisit.TopologicalIsAcyclic` | server/src/model.rs:296-309 | A topological order of all nodes excludes every cycle. |
| `TopologicalVisit.EndlessIsCyclic` | server/src/model.rs:296-309 | A non-empty set each of whose members has a parent in it contains a cycle. |
| `InventoryOrder.Validate` | server/src/model.rs:243-316 | An inventory is accepted if and only if generation and size are in range, identifiers valid and unique, kinds known, parents known and not repeated, and the parent graph acyclic; a refusal names a field that explains it. |
| `InventoryOrder.CheckObjects` | server/src/model.rs:256-271 | Collects all identifiers, or stops at the first fault. |
| `InventoryOrder.Connect` | server/src/model.rs:272-290 | Degrees and children are those of the parent graph, if and only if all parents are acceptable. |
| `InventoryOrder.Attach` | server/src/model.rs:275-288 | The same for one object. |
| `InventoryOrder.GraphIs` | server/src/model.rs:272-290 | Unique identifiers give one graph node per object. |
| `TelemetryRuns.RatesInRuns` | server/src/workers.rs:12-35 | After any run of batches in any order and of daily deletions, every counter row has the rate against its immediate stored predecessor or, once that was deleted, against the last one it had; a row that never had one has the rate of a first sample. |
| `TelemetryAnswers.RatesSay` | server/src/store.rs:198-231 | After any run a counter row stores a rise of d in ms if and only if it and the sample before it (stored, or the last it had) are "ok", ms apart, 0 < ms <= 15 s (90 s for swap and NFS counters), with values d apart; a reset, a first sample and no rate are told apart as exactly. |
| `TelemetryAnswers.AnswersExactly` | server/src/api.rs:437-535 | Which answer a batch gets: refused if malformed or not timely, its first receipt again if repeated, stored if it fits the node and contradicts no stored sample and none of its own, else a conflict; only the third changes anything. |
| `TelemetryAnswers.TakenExactly` | server/src/api.rs:505-612 | What a stored batch leaves: its samples in their series, the newest of each metric shown if it is of the present boot, the node's boot, and a receipt that counts what was new. |
| `TelemetryAnswers.PassExactly` | server/src/workers.rs:13-52 | What a maintenance pass deletes: the samples before the hour a day back and the receipts more than thirty days old, nothing else. |
| `TelemetryRuns.ArrivalOrderIsIrrelevant` | server/src/api.rs:514-590 | Two runs of batches, in any order, that store the same samples of a series store the same rows, rates included: incremental repair equals recomputation. Only the oldest row may still show which predecessor was deleted under it. |
| `TelemetryRuns.ArrivalOrderLeavesNoTrace` | server/src/api.rs:514-590 | Without deletions they store exactly the same rows. |
| `TelemetryRuns.LatestInRuns` | server/src/api.rs:557-588 | In every run, deletions included, the latest row of a metric is the stored row with its present rate, or is older than the last deletion cutoff. |
| `TelemetryRuns.LatestFollowsNewest` | server/src/api.rs:511-588 | In every run of deliveries of one boot and generation the latest row is the newest stored sample, with its rate. |
| `TelemetryRuns.ReplayIsIdempotent` | server/src/api.rs:443-480 | Whatever happened since, an accepted batch sent again changes nothing; it gets its first receipt if and only if all its times still validate, and is refused otherwise. |
| `TelemetryRuns.ReceiptOutlives` | server/src/model.rs:322-331 | No maintenance pass deletes a receipt while its batch still validates: an accepted batch is at most a day and five minutes old, a receipt lives 30 days. |
| `Telemetry.AcceptOk` | server/src/api.rs:437-617 | Every delivery keeps the tables right; a refusal or conflict changes nothing; a receipt is never lost or changed by it. |
| `Telemetry.StoreAllOk` | server/src/api.rs:514-590 | After any accepted batch every counter row has the rate against its immediate predecessor, and every latest row shows its sample with that same rate. |
| `Telemetry.StoreOk` | server/src/api.rs:523-588 | The same for one sample, wherever in time it lands. |
| `Telemetry.StoreAllAdds` | server/src/api.rs:514-590 | A batch adds exactly its own samples to each series and changes no stored one. |
| `Telemetry.StoreAllNewest` | server/src/api.rs:557-588 | Batches of one boot and generation keep the latest row at the newest sample. |
| `Telemetry.ByTimeSorted` | server/src/api.rs:514-515 | The batch is processed in time order, nothing added or lost. |
| `CounterSeries.ExtendedOk` | server/src/api.rs:536-588 | Inserting a sample and repairing its successor re-establishes every rate of the series. |
| `CounterSeries.ExtendedRows` | server/src/api.rs:536-588 | No other row changes. |
| `CounterSeries.SameSamplesSameRows` | server/src/store.rs:198-231 | The samples of a right series determine all its rows. |
| `TelemetryStore.Ingest.Receive` | server/src/api.rs:437-617 | The handler commits exactly the specified tables and answer, or nothing. |
| `TelemetryStore.Ingest.StoreSample` | server/src/api.rs:517-589 | The body of the sample loop is the specified insertion and counts exactly the new samples. |
| `TelemetryStore.Ingest.Previous` | server/src/api.rs:536-538 | Finds the immediate predecessor in time. |
| `TelemetryStore.Ingest.Following` | server/src/api.rs:566-568 | Finds the immediate successor in time. |
| `CollectorRuns.LastWriterWins` | server/src/cider_api.rs:290-343 | In every run the accepted records of an entity strictly increase in (generation, revision), and it is present if and only if the last of them is an upsert. |
| `CollectorRuns.NoResurrectionInRuns` | server/src/cider_api.rs:327-334 | An entity whose deletion was accepted is present only if a later, greater upsert was accepted. |
| `CollectorRuns.AcceptedIncrease` | server/src/cider_api.rs:159-170 | Accepted heartbeats strictly increase in (generation, sequence). |
| `CollectorRuns.ReplayChangesNothing` | server/src/cider_api.rs:128-170 | Whatever happened since, an accepted heartbeat sent again changes nothing; it gets the acknowledgement it got the first time if and only if no maintenance pass came more than 30 days after it, and is refused by the order guards otherwise. |
| `CollectorAnswers.AnswersInRuns` | server/src/cider_api.rs:207-281 | In every run the answer to a heartbeat that is taken carries its own session and sequence and the inventory last brought in its generation, and asks for the inventory if and only if that is not the revision it names. |
| `CollectorAnswers.TakenExactly` | server/src/cider_api.rs:129-287 | In every run which heartbeats are taken (timely, the next of their session or the first of a later generation, inventory not older, records and items acceptable), and everything one leaves behind. |
| `CollectorAnswers.UnmixedInRuns` | server/src/cider_api.rs:155-161 | Without inventories by the other protocol no heartbeat is refused for mixing. |
| `InventoryRecords.RecordsExactly` | server/src/cider_api.rs:290-343 | The records of a heartbeat are refused if and only if one goes back or changes the content of a revision; else every entity is as its last record says, and something changed if and only if some record was not held already. |
| `CollectedItems.ItemsExactly` | server/src/cider_api.rs:214-266 | Collections and events are refused if and only if one is altered or, about to be projected, ahead of its time; else exactly those not projected before are projected, with what is recent enough stored. |
| `CollectorRuns.ProjectedApart` | server/src/cider_api.rs:537-554 | In every run a collection or event is projected again only on a record made more than 30 days after the record of its earlier projection. |
| `CollectorRuns.StoredAgainNeeds` | server/src/cider_api.rs:213-266 | Its samples or event are stored a second time only if it is dated after its first record, a collection by more than 29 days: a collection projected within four weeks of its record never is. |
| `CollectorRuns.ProjectedAgain` | server/src/cider_api.rs:784-791 | Conversely, any item sent again after the pass that deleted its record is projected twice, and stored as often as its date allows. |
| `CollectorRuns.EventStoredAgain` | server/src/cider_api.rs:241-262 | So every event dated up to five minutes ahead of the server is stored twice when it is sent again a millisecond after its 30 days. |
| `CollectorRuns.ProjectedAgainSoon` | server/src/cider_api.rs:213-237 | An item that was held unprojected for its 30 days can be projected twice within one millisecond. |
| `Collector.AcceptOk` | server/src/cider_api.rs:93-288 | Every heartbeat keeps the protocol's invariant and only extends its history; a refusal changes nothing. |
| `RetainedGraph.AppliedOk` | server/src/cider_api.rs:290-334 | A newer record keeps graph, versions and acquisitions consistent with the log of accepted records. |
| `RetainedGraph.ApplyAllOk` | server/src/cider_api.rs:311-343 | So does a whole inventory, whatever its mix of upserts and tombstones. |
| `RetainedGraph.NoResurrection` | server/src/cider_api.rs:327-334 | Within one generation nothing comes back past a tombstone of an equal or greater revision. |
| `RetainedGraph.SameAgain` | server/src/cider_api.rs:293-300 | An inventory that repeats accepted records is accepted and changes nothing. |
| `CollectorStore.Working.AcceptVersion` | server/src/cider_api.rs:290-303 | Refuses a revision that went back or was reused, ignores a repeated one, records a newer one. |
| `CollectorStore.Working.Update` | server/src/cider_api.rs:311-343 | The three loops and the limits, applied to a working copy. |
| `CollectorStore.Node.TakeItems` | server/src/cider_api.rs:213-266 | The record loop holds every item, projects those whose resource is known, and refuses the heartbeat over one dated in the future. |
| `CollectorStore.Node.Open` | server/src/cider_api.rs:140-180 | The order guards admit exactly what the specification admits. |
| `CollectorStore.Node.Heartbeat` | server/src/cider_api.rs:93-288 | The handler commits the specified state and acknowledgement, or nothing. |
| `CollectorStore.Node.Process` | server/src/cider_api.rs:171-206 | The same from the admitted receiver on. |
| `CollectorStore.Node.Commit` | server/src/cider_api.rs:196-287 | The same once the graph is decided. |
| `RetainedReading.ShownIsLastUsable` | server/src/cider_api.rs:673-702 | What a series shows after any run is the last usable reading ever taken in it, however many failed attempts were recorded in it after that; only while none was usable is it the last attempt recorded. |
| `RetainedReading.RetainedAcrossFailures` | server/src/cider_api.rs:678-680 | A usable reading stays shown, unchanged, until another usable one is taken in its series. |
| `RetainedReading.RateEndpoints` | server/src/cider_api.rs:648-665 | A stored rate is measured between two usable readings of one clock and one counter epoch with no other attempt taken in that series, and no expiry of it, in between. |
| `RetainedReading.RatesNeverOverlap` | server/src/cider_api.rs:645-673 | On one clock the intervals measured in a series are disjoint and in order, whatever delayed or failed attempts were recorded between. |
| `MetricRouting.SeriesFollowsItsTrace` | server/src/cider_api.rs:213-239 | In every run of collections each series is what the attempts routed to it make of it: what is proved of one series holds of every series of every node. |
| `MetricRouting.RateSpansFailures` | server/src/cider_api.rs:556-665 | In every run in which all attempts between two usable readings of a field failed: the rate stored with the second spans all of them if and only if none of them is recorded as the newest of the field's live series, that is, each lists the field under an alias, or not at all, or was delivered late. Otherwise there is no rate. |
| `MetricRouting.FailureReaches` | server/src/cider_api.rs:556-605 | A failed attempt is recorded in the series of a field's live readings if and only if it lists the field and the field has no alias. |
| `MetricRouting.StoredRate` | server/src/cider_api.rs:648-675 | The rate of that theorem is the one stored with the reading. |
| `MetricRouting.FailureIsSpanned` | server/src/cider_api.rs:556-665 | For every field: readings at 0 s and 10 s with a failed attempt at 5 s give a rate over the whole 10 s exactly when the field has an alias or the attempt lists nothing. |
| `MetricRouting.ReadBytesSpanFailure` | server/src/cider_api.rs:560-560 | So a listed failure never shows in the rate of bytes read from a disk, which is kept in another series than the failure. |
| `MetricRouting.Store.Project` | server/src/cider_api.rs:622-703 | One field: stores exactly the specified sample, continuity row and shown reading in the series its name and freshness lead to; a conflicting timestamp changes nothing. |
| `MetricRouting.Store.ProjectCollection` | server/src/cider_api.rs:222-230 | All fields of a collection in order; a conflict leaves everything as it was. |
| `UsbEpisodes.ConcernOpensOnlyOnAbsence` | server/src/device_watch.rs:347-405 | A presence concern opens only after two consecutive presences armed the watch and two later consecutive absences, 1-15 s apart in the same context and not contradicted since, and only while the acquisition is current. |
| `UsbEpisodes.ConcernClosesOnlyOnPresence` | server/src/device_watch.rs:347-405 | It is closed only by two consecutive current presences, 1-15 s apart, the last of them just now. |
| `UsbEpisodes.BlindNeverConcludes` | server/src/device_watch.rs:180-189 | After a failed, partial or stale snapshot or a change of context the condition is not fresh: it neither opens nor closes anything. |
| `UsbEpisodes.OpenBecauseLost` | server/src/device_watch.rs:202-224 | While a presence flag is up, the run contains the absences that raised it, not contradicted since. |
| `WatchShows.PresenceExactly` | server/src/device_watch.rs:190-240 | In every run the presence flag is up if and only if two absences in a row were seen of an armed watch, and no two presences in a row since. |
| `WatchShows.ArmedExactly` | server/src/device_watch.rs:190-240 | A watch is armed if and only if two presences in a row were seen and nothing left their context or disarmed it since. |
| `WatchShows.LinkExactly` | server/src/device_watch.rs:275-337 | The link flag of a device with a serial number is up if and only if two samples in a row were below the greatest speed confirmed by then, and no two in a row at or above it since. |
| `WatchShows.ShowsExactly` | server/src/device_watch.rs:190-338 | What a watch shows after any step: presence, link state, speed, driver, context and attribution, told from that step and the flags. |
| `WatchShows.EpochExactly` | server/src/device_watch.rs:225-238 | The epoch of a connection is the one drawn when the device was last seen twice in a row after it had not been. |
| `WatchRuns.AbsenceNeedsTwoAndArming` | server/src/device_watch.rs:190-224 | In every run the flag rises only on two consecutive absences in the context in which two consecutive presences had armed the watch. |
| `WatchRuns.PresenceNeedsTwo` | server/src/device_watch.rs:225-240 | It falls only on two consecutive presences. |
| `WatchRuns.TwoAbsencesConclude` | server/src/device_watch.rs:202-224 | Conversely two consecutive absences of an armed watch raise it. |
| `WatchRuns.TwoPresencesConclude` | server/src/device_watch.rs:232-240 | Two consecutive presences always arm the watch and lower the flag. |
| `WatchRuns.BaselineIsGreatestConfirmed` | server/src/device_watch.rs:275-292 | In every run the baseline is the greatest speed ever confirmed by two consecutive matching samples. |
| `WatchRuns.BestIsGreatest` | server/src/device_watch.rs:275-292 | That reference value is attained by some confirmed sample and bounds all of them. |
| `WatchRuns.BaselineNeverDecreases` | server/src/device_watch.rs:290-292 | So the baseline never decreases and is never forgotten. |
| `WatchRuns.WarningNeedsTwoSlow` | server/src/device_watch.rs:302-321 | The link flag rises only on two consecutive samples below the baseline. |
| `WatchRuns.RecoveryNeedsTwoFast` | server/src/device_watch.rs:322-337 | It falls only on two consecutive samples at or above it. |
| `WatchRuns.WeakNeverFlags` | server/src/device_watch.rs:241-245 | A device without a reported serial number never gets a baseline or a link flag. |
| `WatchIngest.IngestOk` | server/src/device_watch.rs:419-620 | Every heartbeat keeps, for every watch of the node, the run of steps that explains its state. |
| `WatchIngest.EvidenceIsTimed` | server/src/device_watch.rs:482-551 | In every run, acquisitions that count were at most 15 s old, and two that count together are 1-15 s apart in one context. |
| `WatchAnswers.WatchesInRuns` | server/src/device_watch.rs:435-612 | In every run what each watch makes of a heartbeat: a change of context disarms it; an attempt that counts makes it look at a usable snapshot, lose a driver seen under another name, or see nothing. |
| `WatchAnswers.RunRemembers` | server/src/device_watch.rs:458-552 | In every run the node remembers the last attempt that counted: its age and skew, and whether it was usable. |
| `WatchAnswers.BeginsSo` | server/src/device_watch.rs:553-586 | Which devices get a watch: the first new ones of a usable snapshot while the node has fewer than 128 and the server fewer than 8192. |
| `WatchAnswers.AdmitsExactly` | server/src/device_watch.rs:577-586 | The admission loop takes exactly as many new ids as there is room for, and is limited if and only if some id is left out. |
| `ConnectionLoss.LossIsNoticed` | server/src/device_watch.rs:190-250 | Four heartbeats in one context, the device in two snapshots and gone from two: the watch is raised. |
| `ConnectionLoss.LossOpensConcern` | server/src/device_watch.rs:347-411 | End to end: while that is current, it opens an episode of the watch's key. |
| `WatchIngest.AdmitBounded` | server/src/device_watch.rs:574-586 | Admission stops at 128 watches per node and 8192 in all, and admits only devices not yet known. |
| `DeviceWatch.Watch.Observe` | server/src/device_watch.rs:190-338 | Updates the fields in place exactly as specified. |
| `DeviceWatch.Watch.Confirm` | server/src/device_watch.rs:276-292 | One speed sample against the candidate and the baseline. |
| `DeviceWatch.Watch.Judge` | server/src/device_watch.rs:293-337 | The link flag after that sample. |
| `BlockLines.KindExactly` | simple-nfs-server/src/exports.rs:15-45 | Which lines are markers, told from their text without its line end: the four marker texts, each name with its own end; refused is a line that is more than a marker by white space only. |
| `ManagedBlock.StripIsOutside` | simple-nfs-server/src/exports.rs:22-58 | Stripping succeeds if and only if the file has no marker lines or exactly one well-formed block, and then returns exactly the lines outside it. |
| `ManagedBlock.OutsideIs` | simple-nfs-server/src/exports.rs:22-58 | The block is the only one the file has, so what is outside it does not depend on a choice. |
| `ManagedBlock.MalformedIsRefused` | simple-nfs-server/src/exports.rs:28-56 | Rewriting fails if and only if the nesting is malformed. |
| `ManagedBlock.StripIdempotent` | simple-nfs-server/src/exports.rs:22-58 | Stripping a stripped file changes nothing. |
| `ManagedBlock.StripOfRewritten` | simple-nfs-server/src/exports.rs:61-77 | Stripping a rewritten file gives back what was outside, plus at most one newline. |
| `ManagedBlock.RewriteAgain` | simple-nfs-server/src/exports.rs:61-77 | Rewriting a rewritten file equals rewriting the original: only the last line and its date remain. |
| `ManagedBlock.StripManagedBlock` | simple-nfs-server/src/exports.rs:22-58 | The loop with its flags computes the specified result, errors included. |
| `ManagedBlock.WithManagedBlock` | simple-nfs-server/src/exports.rs:61-77 | So does the rewriting. |
| `SplitLines.LinesJoin` | simple-nfs-server/src/exports.rs:26-26 | Splitting and joining are inverse on sequences of lines. |
| `SplitLines.JoinLines` | simple-nfs-server/src/exports.rs:26-26 | And on texts: no byte is lost. |
| `ExportLine.BuildLine` | simple-nfs-server/src/config.rs:181-212 | The escaping loop and the parts after it build the specified line. |
| `ExportLine.ValidatedLineIsPlain` | simple-nfs-server/src/config.rs:79-178 | A validated configuration gives one line without control characters that can never be taken for a marker. |
| `ExportLine.ReadEscaped` | simple-nfs-server/src/config.rs:183-190 | Reading an escaped path back as one field gives the path, whatever follows it. |
| `ExportLine.ExportedPathIsConfigured` | simple-nfs-server/src/config.rs:181-212 | The first field of the line is the configured path. |
| `ExportReading.LineSays` | simple-nfs-server/src/config.rs:181-211 | Read back field by field, the line of a validated configuration is its path, the mapped identity under its mode, the options, and the network or the hosts; nothing else. |
| `ExportReading.FileSays` | simple-nfs-server/src/exports.rs:61-77 | After setup the file is what was outside the block, then both markers around the note and that line. |
| `ExportLine.SetupKeepsTheRest` | simple-nfs-server/src/exports.rs:61-77 | For every validated configuration and well-formed file: setup keeps everything outside the block, and a later setup leaves no trace of it. |
| `ExportsFile.TeardownUndoesSetup` | simple-nfs-server/src/exports.rs:189-211 | Teardown sees the block that setup wrote and restores what was outside it. |
| `ExportsFile.ShownBlocks` | simple-nfs-server/src/exports.rs:79-81 | Exactly which well-formed blocks teardown sees: those whose begin line has at most one carriage return. |
| `ExportsFile.UnseenBlock` | simple-nfs-server/src/exports.rs:79-81 | A file whose block setup strips and teardown does not see. |
| `ExportsFile.ExportsFile.FinishValidation` | simple-nfs-server/src/exports.rs:109-124 | After a failed validation the old content or absence is back, unless writing it back failed too. |
| `ExportsFile.ExportsFile.WriteExports` | simple-nfs-server/src/exports.rs:126-135 | The same after a failed write. |
| `ExportsFile.ExportsFile.Setup` | simple-nfs-server/src/exports.rs:137-187 | Once written and validated the new file stays, and success is then up to the daemon commands; any earlier failure leaves the old file, unless putting it back failed too. |
| `ExportsFile.ExportsFile.Teardown` | simple-nfs-server/src/exports.rs:189-226 | A malformed or unseen block leaves the file alone; otherwise the file becomes what is outside its block and stays so whatever the daemon does, unless the write failed, and then it is put back. |
| `Traversal.ApiClient.All` | web/js/api.js:55-74 | Against the server, with other clients and the clock interfering between any two requests: the traversal terminates, and either fails or returns exactly one frozen list, each row once and in order; the repeated-cursor error cannot occur. |
| `Traversal.ApiClient.Fetch` | web/js/api.js:61-67 | At most four requests with the same cursor, and another only after the server asked for no more than 30 s; the answer is that of the last one. |
| `Traversal.ApiClient.Get` | web/js/api.js:9-45 | One request, with the release of an older traversal, keeps every other frozen page. |
| `Traversal.FollowingStep` | web/js/api.js:68-72 | Each further page extends the prefix collected so far, strictly, by the next rows of the same list. |
| `PageCache.ListedOk` | server/src/read_api.rs:333-349 | A first page keeps the cache within 128 entries and 32 MiB. |
| `PageCache.ReleasedOk` | server/src/read_api.rs:580-599 | So does releasing a traversal. |
| `PageCache.Cache.List` | server/src/read_api.rs:333-349 | Freezes the list under a new key, or refuses when the cache is full. |
| `PageCache.Cache.Continue` | server/src/read_api.rs:601-614 | Answers a cursor from the frozen list, or says that it is gone or not this traversal's. |
| `PageCache.Cache.Release` | server/src/read_api.rs:580-599 | Removes only a live page that the cursor matches; a malformed or foreign cursor releases nothing. |
| `PageCache.Cache.Serve` | server/src/read_api.rs:333-349 | Whatever others do in between, no entry changes, and a removed key never comes back. |
| `PageRuns.ContinueExactly` | server/src/read_api.rs:601-614 | In every run a later page is answered if and only if its list was frozen for this very reader, path and parameters, at most five minutes before it expires, and was neither given up nor let go of since. |
| `PageRuns.ContinueServes` | server/src/read_api.rs:611-613 | And then it is the next page of that list. |
| `PageRuns.ListExactly` | server/src/read_api.rs:333-349 | A short list is answered as it is; a longer one is frozen for five minutes unless 128 are, or they would exceed 32 MiB. |
| `PageRuns.PagesInRuns` | server/src/read_api.rs:333-349 | What the cache holds after any run: the lists frozen and neither out of date when another was frozen nor given up. |
| `CursorText.CursorRoundTrip` | server/src/read_api.rs:565-571 | Parsing a formatted cursor gives the cursor back. |
| `WorkloadBands.Bands` | server/src/reliability.rs:744-768 | For all 128-bit deltas: an interval of 1-15 s with enough work is classified, and both bands are the exact mathematical ones. |
| `WorkloadBands.RateBand` | server/src/reliability.rs:762-767 | The scan stops at the greatest band, zero if none, at most 63. |
| `WorkloadBands.SaturationIsExact` | server/src/reliability.rs:762-766 | Saturating the left side never changes a comparison. |
| `WorkloadBands.CheckedIsExact` | server/src/reliability.rs:758-761 | Taking an overflowing bound as fitting is exact. |
| `WorkloadBands.ProductFits` | server/src/reliability.rs:762-766 | No product on the right overflows. |
| `WorkloadBands.BandsUnique` | server/src/reliability.rs:758-767 | Both bands are determined by their definitions. |
| `HealthRules.ResolvedByTwoClears` | server/src/reliability.rs:292-371 | In every run a finding is reported resolved if and only if an adverse judgement opened it, it was open ever since, and the last two judgements were both usable and clear. |
| `HealthRules.FindingLife` | server/src/reliability.rs:292-383 | For every open finding of every run there is the adverse judgement that opened and reported it; it has had that identity ever since with only concerns reported, and it ends by a resolution, a reset or an interruption that is reported. |
| `HealthRules.ConcernNeedsChange` | server/src/reliability.rs:636-687 | In every run of collections a counter rule reports a concern if and only if the last collection that read the counter, with no interruption since, left a reading of the same epoch from which the new one differs for the worse. |
| `HealthRules.CounterIsLastRead` | server/src/reliability.rs:641-652 | In every run the stored counter is the last eligible reading since the last interruption. |
| `HealthRules.ReportsAreTheRules` | server/src/reliability.rs:467-697 | What a collection reports is what its rules report one by one, each from the state before it. |
| `HealthRules.SignalFollowsItsHistory` | server/src/reliability.rs:384-697 | In every run of collections each signal of a source is what its own history of judgements, resets and interruptions makes of it: what is proved of one rule holds of every rule of every source. |
| `HealthAnswers.StatusInRuns` | server/src/reliability.rs:292-384 | After any run of judgements the status and usability of a signal are told from the last of them. |
| `HealthAnswers.ClearShows` | server/src/reliability.rs:355-371 | After a clear judgement a signal is recovering if and only if its finding is still open, that is, if it was the first clear one. |
| `HealthAnswers.TakenInRuns` | server/src/reliability.rs:384-462 | In every run which collections are taken and which interrupt the source: another continuity than the last, or evidence about another device than the last such. |
| `HealthAnswers.JudgementInRuns` | server/src/reliability.rs:463-690 | In every run how each rule judges a collection: nothing without evidence, history without an earlier reading, a reset when the two cannot be compared, else whether it changed for the worse. |
| `HealthRules.JudgedOnItsOwn` | server/src/reliability.rs:467-697 | Whatever its place in the loops, each rule is judged exactly once, on its reading and the counter from before the collection; no rule disturbs another. |
| `HealthRules.SourceState.Observe` | server/src/reliability.rs:384-697 | A repeated or older collection changes and reports nothing; any other ends every finding first if continuity or device changed, and then leaves exactly the specified signals, counters and reports. |
| `HealthRules.SourceState.MeetDevice` | server/src/reliability.rs:406-461 | Evidence that is too old, or about two devices, is none; evidence about another device than before interrupts the source first. |
| `HealthRules.SourceState.JudgeRules` | server/src/reliability.rs:467-697 | The rule loops give the specified signals, counters and reports, in order. |
| `HealthRules.SourceState.JudgeRule` | server/src/reliability.rs:467-697 | The same for one rule, direct or counted. |
| `HealthRules.SourceState.Count` | server/src/reliability.rs:636-697 | One counter rule: a reset and a judgement in that order, and a first reading marked as history. |
| `HealthRules.SourceState.Compare` | server/src/reliability.rs:641-677 | A reading is compared only with one of the same epoch; a counter that went wrong resets its rule. |
| `HealthRules.SourceState.Apply` | server/src/reliability.rs:292-371 | One judgement of one signal. |
| `HealthRules.SourceState.InterruptAll` | server/src/reliability.rs:260-284 | Exactly the open findings are reported, each as interrupted; counters are forgotten, the order guards are not. |
| `Rollup.RollupNeverRegresses` | server/src/workers.rs:9-45 | With a clock that does not go back, each event leaves a bucket as it is or replaces it by the aggregate of every row ever accepted in it, a superset of what it had counted. |
| `Rollup.PrunedIsNeverRewritten` | server/src/workers.rs:12-35 | A bucket any of whose rows was pruned is never rewritten. |
| `Rollup.WholeBucket` | server/src/workers.rs:13-25 | A bucket a pass rewrites still has all its rows. |
| `Rollup.CutoffAligned` | server/src/workers.rs:13-25 | The hour-aligned cutoff never splits a bucket of either resolution. |
| `Rollup.CountedWhen` | server/src/workers.rs:9-45 | In every run a rollup bucket counts a row if and only if some pass found it stored, in a complete bucket and not yet past the cutoff. |
| `Rollup.CountedByPass` | server/src/workers.rs:25-45 | In one pass, a stored row not yet counted is counted if and only if it lies between the cutoff and the last complete bucket. |
| `RollupAnswers.RowsInRuns` | server/src/workers.rs:12-35 | In every run a sample is stored if and only if it was accepted and every pass since fell within a day of it, or of the hour that holds it. |
| `RollupAnswers.BucketsInRuns` | server/src/workers.rs:9-45 | In every run a bucket exists if and only if some pass found a sample for it and no pass from then on came thirty days, for an hourly one a year, after its start. |
| `RollupAnswers.CountedInRuns` | server/src/workers.rs:13-33 | And it counts exactly the samples that some pass found for it once it was over. |
| `Rollup.LostForGood` | server/src/workers.rs:25-35 | A row pruned before any pass saw it is never counted later: pruned rows do not come back. |
| `Rollup.NoPassLost` | server/src/workers.rs:12-35 | A row accepted fresh that is lost because no pass was made for a day. |
| `Rollup.LateRowLost` | server/src/model.rs:322-331 | A row accepted within its 24 hours that is pruned before any pass counted it. |
| `Rollup.Store.Maintain` | server/src/workers.rs:9-45 | The upserts and deletions give exactly the specified tables. |

## Left out

- HTTP routing, credentials, TLS, request replay headers, JSON encoding and SQL: a request arrives decoded, and a committed transaction is one step.
- Twilio networking and credentials: only the answer of one exchange remains, any answer or none.
- Floating point: rates are exact quotients or reals, so rounding and the branch for a rate that is not finite are not modelled.
- Evidence, summary and provenance text: only fields a property mentions are carried.
- ActivityDetector.SourceState.PruneBaseline: the encoded length of an interval is an arbitrary function, not the length of its JSON text.
- ActivityDetector.SourceState.Interrupt: interruption because the serialized state is too large (server/src/detection.rs:530-538) is one more reason of an interruption at any time; the size test itself is not modelled.
- ActivityTraining.TrainingBecomesReady: the length limit of the ring is a matter of the encoding; here no interval is longer than 144 bytes, so that 1800 of them fit.
- AttentionInvariant.RetainOk: reconciliation is decomposed into its retention, evaluations and final marking, each a step of its own; the conditions it gathers are arbitrary.
- DeliveryStore.Store.ObserveCondition: the length limits on key, summary and evidence are one flag of the condition.
- DiskIndex.BuildIndex: projected display fields, the topology revision digest and capacity sums are not modelled, nor is the derivation of the inventory state, which is an input.
- Telemetry.AcceptOk: times are whole milliseconds, and whatever else is validated in a batch is one flag.
- TelemetryRuns.ReplayIsIdempotent: a batch is validated before it waits for the writer; here it does not wait for four weeks.
- TelemetryRuns.LatestInRuns: here no validated batch waits for the writer across a maintenance pass.
- CollectorRuns.ProjectedApart: the time of a heartbeat is taken before it waits for the writer; here the times of a run never go back.
- CollectorRuns.ProjectedAgainSoon: the uniqueness of a stored sample, which can refuse a whole heartbeat (server/src/cider_api.rs:672-680), is one of the remaining checks that are one flag of it.
- Collector.AcceptOk: the wire validator's verdicts and the encoded size of the graph are inputs; object projection, drive removals and collector states are not modelled.
- MetricRouting.Store.Project: the sample's display state and the marking of a retained value as stale (server/src/cider_api.rs:705-769) are not modelled; the table of aliases is taken over as it stands.
- WatchIngest.IngestOk: the ingestion of a heartbeat is modelled on values, not on a class; parsing of a snapshot is an input.
- DeviceWatch.Watch.Observe: the sample recorded with a speed is reduced to its rate, and the counters are one value.
- Ownership.Membership: beyond the limit of 4096 reachable nodes it says only that no wrong disk is shown.
- ExportLine.ValidatedLineIsPlain: address parsing, mask arithmetic and the normalisation of path components are abstract; a validated address is a text of address characters.
- ExportsFile.ExportsFile.Setup: the daemon commands are one flag, and checks before the file is read and the dated backup copy are not modelled; a failed write may leave any content.
- MetricRouting.RateSpansFailures: a derived capacity field (server/src/cider_api.rs:607-616) is one more field of its collection; which collections are projected at all is an input.
- CursorText.CursorRoundTrip: the page cache works on parsed cursors; the text form is separate, and a UUID is any text without a dot that the parser accepts.
- PageCache.Cache.Serve: the read budget is an arbitrary refusal with a delay.
- HealthRules.SourceState.Observe: whether a collection is about a medium, and which identities its readings carry, is an input; the service-time rule of server/src/reliability.rs:703-954 is modelled only in its workload bands; its means and thresholds are floating point.
- Rollup.Store.Maintain: a bucket holds the readings it aggregates instead of their minimum, maximum and mean; the clock is at least a day after the epoch.
- Forecasts, quotas, diagnostics, hardware and security rules, the desktop window and the web views: statistics or one-level tables that would add only easy members.
