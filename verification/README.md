# Verified models of the market-loop core

Dafny models of the parts of market-loop in which several steps, processes or
documents have to fit together, with proofs of what they promise.

| files | what they model |
|---|---|
| CursorCodec, UnionFeed | the paged union feed: opaque cursors, two batched keyset scans, merge and paging |
| RatingFold, TargetChanges | the folds that find the latest rating change of assets and of other targets, and the weighted observation |
| ExtractionQueue, ExtractionHistory | the per-news work list of a scan: item statuses, batch state, time accounting |
| ScanGate | the scan lease with pause key, heartbeat and stale recovery |
| Research, ResearchDesk | admission with coalescing, dispatch markers, recovery, priority migration and cancellation, each operation by itself |
| Dispatch, DispatchRuns | the same operations as processes that read, mark, save, publish and undo in separate steps, over every interleaving |
| Admission, Acceptance | admission under the asset's lock over every interleaving, and what becomes of an accepted event |
| Fencing, Interference | which message may work over every interleaving, and executions that show what interference does |
| Cutover | the crash-safe move of legacy lists into Go jobs, for the extract and the mapping lane |
| QueueSplit | the one-transaction split of the old model queue |
| Slots, SlotRuns, SlotLeases | inference slots: the division of a lane, local pools and the processes using them, leased locks |
| SingleFlight | the cached queue snapshot and its single background refresh |
| ContractDiff | the budgeted JSON comparison and the canonicaliser |
| Calibration, StageMetrics | Brier scores, calibration error, clustering counters, composite score, chronological split |
| Common, Sorting, RealArithmetic | shared datatypes, insertion sort and its laws, laws of real products and ratios |

Members whose names end in `Means` tie the functions an operation rests on to the fields
of its inputs, and the operations' own contracts say in such fields what they answer.

State that the program changes in place is a class whose methods are proved
against a function on values; the lemmas about whole runs are about that
function. `dafny verify dfyconfig.toml` checks everything.

## What is taken for granted

- One helper call on Redis, and one save of a row, is one atomic step. `GET` followed
  by `DELETE` or `EXPIRE` inside one helper counts as one step.
- A research process works on the copy of the row it has read; between its read, mark,
  save, publication and undo any other process may act. A worker's status report, the
  start of a delivery and a cancellation read and write their row in one step.
- While an admission holds the lock of its asset, nobody else enters an admission of that
  asset. How long it holds the lock depends on the database, see below. The query for the
  active run answers with some active run of the asset, or with none when there is none.
- Task ids drawn by `uuid4` were never drawn before.
- A worker reports on a run that is still active, and a current asset task that is
  delivered belongs to a run that has not ended. `Research.Enabled` says so, and
  `Research.DeliveryKeepsOneActive` shows when the second half is needed.
- During a cutover nothing publishes to the legacy lists (backend-go/README.md:107);
  rows of `go_jobs` are never deleted, keep their id, queue, dedupe key, payload and
  priority, and once ended stay ended (backend-go/internal/jobs/store.go:125-240).
- The feed is read over one fixed snapshot in which ids are unique in each table and
  a row's time and id are those of its payload.
- Clocks do not go backwards.
- Conversions of the standard library (ISO times, UUID texts, UTF-8, JSON) are
  parameters; `CursorCodec.Faithful` lists what the cursor needs of them.

## What turned out to need a condition

- Under locks held to the end admission needs no condition: one active run per asset and no
  event lost, whatever workers, operators, crashes and the broker do
  (`Admission.AdmissionNeedsNoCondition`). SQLite's process lock is held that long, within one
  service. PostgreSQL's is a transaction lock (backend/app/services/research_admission.py:55-60),
  and the first save commits (backend/app/storage.py:384-411), although the comment there
  speaks of serialised admission for every database. There is still one active run per asset
  (`Admission.AlwaysOneActive`), but an admission that cannot publish its run marks it failed
  from its own copy, and an event that joined in between is lost
  (`Interference.JoinIsUndone`); otherwise none is (`Admission.AdmissionLosesNothingIff`).
- A recovery saves the copy of the row it has read. An event that joined in between is
  lost (`Interference.JoinIsOverwritten`), and so is the link of a merged record. An event
  stays listed for good exactly when no open process holds a copy of its run without it
  (`Acceptance.ListedForGoodIff`, `Acceptance.AcceptedExactlyOnce`). Recoveries and
  requeueings that meet unchanged rows do no harm (`Admission.OneActiveAndNothingLost`).
- If the active run is cancelled while an event is about to join it, the merged record is
  added although the join was refused (`Interference.JoinIsRefused`). Merged records point at
  runs that list their event exactly when that does not happen
  (`Admission.MergedPointWellIff`).
- The undo of a failed publication makes the previous task id current again, even after
  the new message has begun work (`Interference.UndoAfterDelivery`). A superseded message
  is superseded for good exactly when no open process still holds a copy with its id
  (`Fencing.SupersededForGoodIff`). Once a message has begun work, no other id drawn by then is
  ever current again under the same condition (`Fencing.OnlyOneWorksIff`); saves and undos
  that meet unchanged rows are a sufficient case (`Fencing.OnlyOneWorks`).
- Two messages of one research run can both pass the worker's guard at the same time
  exactly when the run has no task id (`Research.OnlyOneTaskWorks`): runs reserved for a
  synchronous request, when recovery republishes one and the broker reports an error
  although it took the message (`Interference.TwoMessagesWithoutTaskId`).
- The guard of asset research lets a message through whose run has completed or failed;
  that makes a second run of the asset active if a newer one is queued
  (`Interference.RedeliveryAfterCompletion`, with the exact condition in
  `Research.DeliveryKeepsOneActive`).
- A task that lost the scan gate can still remove a pause key naming itself, and
  nothing else (`ScanGate.LostTaskIsHarmless`).
- A full clear marks the scan status cancelled even when the gate already belongs to
  a different scan (`ScanGate.ScanRedis.ClearNewsExtractionQueue`).
- An update with a status the callers never use would leave an open attempt behind
  (`ExtractionHistory.ReportKeepsAttemptRule`).
- Overlapping slot tuples, or a holder that is silent for a whole lease, allow a slot
  to be held twice (`Slots.OverlapIsHandedOutTwice`, `SlotLeases.LateRenewal`).
- Resetting the snapshot cache keeps single flight exactly when no refresh is in
  flight (`SingleFlight.ResetKeepsSingle`).
- The split of the walk-forward evaluation is not chronological when records on both
  sides of the cut carry the same time (`StageMetrics.WalkForward`).

## Model

| member | source | states |
|---|---|---|
| Common.TextLessMeans | backend/app/api_integrations.py:1305 | one text comes first if it is a proper beginning of the other, or has the smaller character where they first differ |
| CursorCodec.Base64RoundTrip | backend/app/api_integrations.py:857-870 | the lenient decoder gives back every byte string the encoder wrote |
| CursorCodec.PaddingRestored | backend/app/api_integrations.py:857-865 | for every length the stripped text is URL-safe and unpadded (section 5 of RFC 4648), and re-padding restores the encoder's text (section 3.2 of RFC 4648) |
| CursorCodec.BytesRoundTrip | backend/app/api_integrations.py:857-865 | strip, re-pad and decode give the bytes back |
| CursorCodec.RawRoundTrip | backend/app/api_integrations.py:857-868 | splitting `time\|kind\|id` at the bar is unambiguous for every key |
| CursorCodec.CursorRoundTrip | backend/app/api_integrations.py:857-870 | decoding an encoded cursor gives the same time, kind and id, and a cursor is never empty |
| CursorCodec.UnionCodecRoundTrips | backend/app/api_integrations.py:857-870 | the source's codec meets the round-trip assumption under which the feed is proved |
| UnionFeed.PrefilterLosesNothing | backend/app/api_integrations.py:1001-1066 | the non-strict `<= cursor time` prefilter drops no row that lies before the cursor |
| UnionFeed.RestartResumes | backend/app/api_integrations.py:1001-1066 | restarting strictly after the last row read selects exactly the rows not read yet |
| UnionFeed.ScanBatch | backend/app/api_integrations.py:1001-1066 | the inner loop appends the batch's qualifying items in order and stops at `wanted` |
| UnionFeed.ScanConclusions | backend/app/api_integrations.py:1001-1134 | for every table, filter, cursor and limit the batched scan terminates and returns exactly the first `wanted` items of "filter everything, keep what lies before the cursor" |
| UnionFeed.SortIsMerge | backend/app/api_integrations.py:1136-1194 | sorting the two concatenated scans is merging them |
| UnionFeed.TopOfMerge | backend/app/api_integrations.py:1136-1194 | the first n entries of a merge need only the first n of each side, so stopping each scan at limit + 1 is enough |
| UnionFeed.FullFeedIsComplete | backend/app/api_integrations.py:1136-1194 | the reference feed is strictly descending and holds exactly the rows the filters show |
| UnionFeed.ListResearchConclusions | backend/app/api_integrations.py:1136-1194 | one request answers with the page of the full feed that follows the cursor, or the cursor error |
| UnionFeed.PageStep | backend/app/api_integrations.py:1136-1194 | one page moves the client on by exactly the entries it shows |
| UnionFeed.PagesCoverTheFeed | backend/app/api_integrations.py:1136-1194 | following `next_cursor` terminates; the pages together are the full feed, nothing missed or repeated; `next_cursor` is null exactly on the last page |
| UnionFeed.GatherFeed | backend/app/api_integrations.py:1136-1194 | the two scans of one request, each for limit + 1 items, run as the filters ask |
| UnionFeed.UnfilteredFeed | backend/app/api_integrations.py:905-955 | without filters an asset row is in the feed if and only if it is in its table and not retryable; an event row if and only if it has, moreover, a report, one of six statuses, and is finished or in public refresh |
| UnionFeed.FiltersCut | backend/app/api_integrations.py:916-962 | the filters cut the unfiltered feed to the rows with that kind, market, rating, evidence and text; a market or rating leaves no event row |
| UnionFeed.EvidenceDivides | backend/app/api_integrations.py:882-887 | the feeds of complete and of incomplete evidence divide the feed between them |
| UnionFeed.FeedOrder | backend/app/api_integrations.py:874-879 | newest first; at the same time assets before events, and greater ids first |
| RatingFold.ChangeOfMeaning | backend/app/api_integrations.py:683-710 | a history calls for a change exactly when two neighbours differ; it is the last such pair, with the latest recommendation, and the rating stays from then on |
| RatingFold.FoldStep | backend/app/api_integrations.py:683-710 | one row updates the three dictionaries as its asset's history grows, whatever the other assets are |
| RatingFold.LatestChangedTargets | backend/app/api_integrations.py:683-710 | an asset is emitted exactly when its history calls for a change, once, with its last pair and its latest recommendation, newest first |
| RatingFold.CollectChanges | backend/app/api_integrations.py:703-706 | going through the change dictionary in any order gives every due change once |
| TargetChanges.AddReport | backend/app/api_integrations.py:1396-1453 | the nested dictionaries hold, per target, one snapshot for every report that mentions it, in report order |
| TargetChanges.SnapshotsInOrder | backend/app/api_integrations.py:1360-1362 | histories inherit the query's order, so the later sort changes nothing |
| TargetChanges.FoldHistory | backend/app/api_integrations.py:1457-1474 | the pass over one history finds the same change as the asset fold does |
| TargetChanges.EventTargetChanges | backend/app/api_integrations.py:1352-1513 | every target whose rating ever changed is emitted once, with its last change and latest snapshot, newest first |
| TargetChanges.ConcreteTargetChanges | backend/app/api_integrations.py:1662-1683 | each key is listed once with its newest change, the first of equally new ones; newest first |
| TargetChanges.ObservationIsInsufficient | backend/app/api_integrations.py:1332-1336 | an observation is insufficient exactly for a provisional report, impacts 30 or more apart, or technical failures only |
| TargetChanges.ObservationIsBetween | backend/app/api_integrations.py:1317-1350 | each of the four weighted figures lies between the extremes of the impacts |
| TargetChanges.GroupImpacts | backend/app/api_integrations.py:1416-1422 | the inner dictionary groups a report's impacts by target, in order |
| TargetChanges.CollectTargets | backend/app/api_integrations.py:1455-1475 | going through the histories in any order gives every due change once |
| TargetChanges.RepresentativeMeans | backend/app/api_integrations.py:1298-1307 | the representative is the first impact of greatest confidence, then most evidence, then fewest gaps, then last name |
| TargetChanges.SnapshotsMean | backend/app/api_integrations.py:1442-1453 | a report that mentions the target adds one snapshot with its time, its id and its representative's rating; any other adds nothing |
| TargetChanges.GroupSnoc | backend/app/api_integrations.py:1416-1422 | a target's impacts stand in report order, each once |
| TargetChanges.ObservationIsWeighted | backend/app/api_integrations.py:1316-1331 | each of the four figures is the mean weighted by confidence |
| TargetChanges.WeightsSnoc | backend/app/api_integrations.py:1316-1326 | an impact weighs its confidence, but at least 0.05 |
| ExtractionQueue.NewsExtractionCounts | backend/app/worker.py:784-790 | the five counters are the numbers of items in the five statuses |
| ExtractionQueue.CountsAddUp | backend/app/worker.py:784-790 | the six statuses together account for every item |
| ExtractionQueue.CountsGiveSummary | backend/app/worker.py:1140-1151 | choosing the state by counters is the running > retrying > queued > failed > completed summary of the items |
| ExtractionQueue.WorkList.Initialize | backend/app/worker.py:1059-1084 | a new batch holds one fresh item per entry, in order, and its state is the summary of its items |
| ExtractionQueue.WorkList.Update | backend/app/worker.py:1087-1153 | exactly the first item with the news id moves, and only if it is not cancelled and the batch is this scan's: it gets the reported status, error, attempt and times; the state becomes the summary |
| ExtractionQueue.WorkList.CancelTask | backend/app/worker.py:1000-1047 | only the first queued, running or retrying match is cancelled, and its task returned; nothing is stored unless there is a task to revoke |
| ExtractionQueue.WorkList.Clear | backend/app/worker.py:915-979 | exactly the queued, running, retrying and failed items in scope are cancelled, the tasks of all but the failed ones are returned, and the batch is given up exactly by the abort rule |
| ExtractionQueue.WorkList.Finish | backend/app/worker.py:1156-1170 | a finish sets error and final state, by the failure given or a failed item, unless the batch was cancelled or belongs to another scan |
| ExtractionQueue.ScopeTasks | backend/app/worker.py:929-965 | there is a task to revoke exactly when an active item in scope has a task id |
| ExtractionQueue.MoveMeans | backend/app/worker.py:1000-1126 | which items an event reaches, in terms of ids, order, scope and status, and what it does to them |
| ExtractionQueue.SummaryMeans | backend/app/worker.py:1140-1151 | the five states a batch can have, in terms of its items |
| ExtractionHistory.IdentitiesNeverChange | backend/app/worker.py:915-1153 | over every run the items, their identities and their order stay the same |
| ExtractionHistory.TotalsAddUp | backend/app/worker.py:784-790 | over every run the five counters and the cancelled items add up to `total_items` |
| ExtractionHistory.RunningIffAttemptOpen | backend/app/worker.py:1103-1121 | over every run an item is running exactly when its attempt has a start time |
| ExtractionHistory.ReportKeepsAttemptRule | backend/app/worker.py:1103-1121 | reporting a status keeps that rule if and only if it is one of the four statuses callers use or no attempt is open |
| ExtractionHistory.EndTimesMatchStatus | backend/app/worker.py:1103-1124 | over every run a terminal item has an end time, none in the future, and a running one has none |
| ExtractionHistory.CancelledIsFinal | backend/app/worker.py:1105-1107 | over every run a cancelled item never changes again |
| ExtractionHistory.ScopedClear | backend/app/worker.py:929-935 | a clear scoped to an instance changes exactly that instance's clearable items |
| ExtractionHistory.StateIsSummary | backend/app/worker.py:970-982 | over every run the state is the summary of the items unless a finish, interruption or aborting clear was the last to set it |
| ExtractionHistory.FullClearEndsTheBatch | backend/app/worker.py:915-982 | after a full clear nothing is left active, and only an update of a completed item can change an item |
| ExtractionHistory.ExecutionTimeIsRunningTime | backend/app/worker.py:804-828 | at any moment the reported execution time is the total time the item has been running, less than one millisecond short per attempt, and missing exactly when it never ran |
| ExtractionHistory.QueueTimeIsFixed | backend/app/worker.py:811-821 | the reported queue time is fixed at the first start and never changes |
| ExtractionHistory.StatusIsLastWord | backend/app/worker.py:1087-1153 | over every run an item's status and error are those of the last update that reached it, or it is cancelled when a cancel or clear reached it last |
| ScanGate.NoHandOver | backend/app/worker.py:1173-1191 | no step hands the gate from one task to another |
| ScanGate.OwnersAreSeparated | backend/app/worker.py:1173-1191 | in every run there is a moment without owner between two owners |
| ScanGate.LostTaskIsHarmless | backend/app/worker.py:1227-1268 | renew, touch, release and complete of a task without the gate change nothing, except that it may drop a pause naming itself |
| ScanGate.RecoverEvictsExactlyTheStale | backend/app/worker.py:2555-2587 | stale recovery takes the gate exactly from an unpaused scan whose last sign of life is too old |
| ScanGate.HeartbeatsKeepTheGate | backend/app/worker.py:2608-2623 | a scan whose heartbeats succeed within the stale limit owns the gate throughout every run, whatever others, recovery and expiry do |
| ScanGate.ScanRedis.TouchScanHeartbeat | backend/app/worker.py:2608-2623 | the heartbeat moves exactly when the task owns the gate and the status |
| ScanGate.ScanRedis.RequestScanPause | backend/app/worker.py:1271-1290 | a pause names the gate's owner, remembers the phase, and protects the scan from stale recovery |
| ScanGate.ScanRedis.ResumeScan | backend/app/worker.py:1293-1309 | a resume lifts the owner's pause and restores the phase |
| ScanGate.ScanRedis.CompleteScan | backend/app/worker.py:1227-1256 | only the owner completes; the next scan is at the first slot of the start's grid after completion |
| ScanGate.ScanRedis.RecoverStaleScanGate | backend/app/worker.py:2555-2587 | recovery frees a stale gate and interrupts exactly that scan's work list |
| ScanGate.ScanRedis.ClearNewsExtractionQueue | backend/app/worker.py:915-997 | an aborting clear cancels the scan status and releases the keys naming the scan; any other clear leaves gate, pause and status alone |
| ScanGate.NextSlot | backend/app/worker.py:1238-1240 | the computed next scan time is the first whole interval after completion |
| ScanGate.ScanRedis.ClaimScanGate | backend/app/worker.py:1181-1191 | an empty gate is taken and the own gate renewed, also when another process acts after the first look; the answer says who owns it afterwards |
| ScanGate.ScanRedis.EnqueueScan | backend/app/worker.py:1349-1387 | at most one scan is queued, also when another process claims the gate after the first look; a failed publication leaves the gate empty and the status failed |
| ScanGate.ScanRedis.RenewScanGate | backend/app/worker.py:1173-1178 | a renewal succeeds exactly for the owner |
| ScanGate.CountTerminal | backend/app/worker.py:983-986 | the progress reported with an abort is the number of terminal items |
| ScanGate.OwnerMeans | backend/app/worker.py:1173-1191 | a key belongs to the task written in it until it expires |
| ScanGate.LimitsMean | backend/app/worker.py:178-183 | the stale limit is ten minutes or two leases, the lifetime of keys twelve hours or three intervals, whichever is longer |
| ScanGate.StaleMeans | backend/app/worker.py:2562-2571 | a scan is stale when it is not paused and its last heartbeat, or else its start, is older than the limit |
| Research.Accepted | backend/app/worker.py:1406-1478 | an ordinary event is refused only for the cooldown; otherwise the accepting run is the active run and lists it once |
| Research.CancelledSurvivesSaves | backend/app/storage.py:384-395 | no sequence of saves takes a row out of the cancelled status |
| Research.FailedRefreshKeepsTheReport | backend/app/worker.py:2475-2552 | a failed refresh keeps report, status and task id, and archives the report |
| Research.RetryStartsAfresh | backend/app/worker.py:2329-2402 | a retry drops the old report, supersedes every earlier message, and fails the run when it cannot be published |
| Research.FailedMigration | backend/app/research_priority_migration.py:118-131 | a failed migration that nobody interrupts leaves the rows as they were, and the run does not look lost when the old marker could be rewritten |
| Research.RecoveryIsNotRepeated | backend/app/worker.py:625-638 | a published recovery supersedes every earlier message and is not repeated while its marker stands |
| Research.DeliveryKeepsOneActive | backend/app/worker.py:3799-3830 | starting a delivered asset run keeps one active run per asset if and only if the run is active or no other run of its asset is |
| Research.OnlyOneTaskWorks | backend/app/worker.py:3676-3680 | at any moment two messages of one run can both pass the guard if and only if the run has no task id |
| Research.DispatchMeans | backend/app/worker.py:1567-1593 | what a dispatch leaves behind for every outcome: row, marker, message and drawn id |
| Research.EnqueueMeans | backend/app/worker.py:1390-1593 | an ordinary event joins the active run and is recorded as merged; another request is refused while a run is active or cooling down; all others get a queued run; each field by field |
| Research.ReserveMeans | backend/app/worker.py:1596-1628 | a synchronous request gets a queued run without a task unless a run is active or cooling down; nothing is sent |
| Research.ReportMeans | backend/app/worker.py:2224-2288 | a new report is queued under the task id of its message |
| Research.RetryMeans | backend/app/worker.py:2329-2402 | a retried report is queued under a new task id, without its old report |
| Research.RefreshMeans | backend/app/worker.py:2475-2552 | a refreshed report is queued under a new task id with its report, which is archived once |
| Research.DeliverMeans | backend/app/worker.py:3672-3690 | a delivered message starts its run exactly when it carries the run's task id, or the run has none, and the status does not answer it |
| Research.NeedsRecoveryMeans | backend/app/worker.py:620-633 | a queued run is lost exactly when its marker is missing or names another task, or its last step is the loss of its worker's lease |
| Research.ActiveForMeans | backend/app/storage.py:440-450 | an asset's run is active while it is queued, running or verifying |
| ResearchDesk.Desk.SaveRun | backend/app/storage.py:384-411 | a save replaces the row unless that would revive a cancelled one |
| ResearchDesk.Desk.EnqueueResearch | backend/app/worker.py:1390-1592 | saving, marking, publishing and undoing one after the other amount to one admission step, with its answer |
| ResearchDesk.Desk.ReserveResearchRun | backend/app/worker.py:1596-1628 | a synchronous run passes the same admission |
| ResearchDesk.Desk.EnqueueEventReport | backend/app/worker.py:2224-2288 | an event gets one report run; a failed publication marks it failed |
| ResearchDesk.Desk.EnqueueEventResearchRetry | backend/app/worker.py:2329-2402 | a retry moves the row to a fresh task id, or to failed |
| ResearchDesk.Desk.EnqueueEventResearchRefresh | backend/app/worker.py:2475-2552 | a refresh moves the row to a fresh task id, or back |
| ResearchDesk.Desk.BeginResearch | backend/app/worker.py:3672-3690 | a message starts work exactly when it carries the run's task id, or the run has none, and the run's status does not answer it; the row is then running |
| ResearchDesk.Desk.MigrateQueuedEventPriorities | backend/app/research_priority_migration.py:34-143 | the loop redispatches exactly the rows its verdicts say, against the state each row is read in again; for distinct rows: exactly the listed rows that still wait, with their verdicts, markers and messages |
| ResearchDesk.MigrationSupersedes | backend/app/research_priority_migration.py:80-117 | a requeued run leaves all its earlier messages superseded |
| ResearchDesk.DryRunChangesNothing | backend/app/research_priority_migration.py:71-74 | without the apply flag nothing changes |
| ResearchDesk.Desk.RecoverOrphans | backend/app/worker.py:590-712 | the loop recovers every candidate copy that looks lost, whatever its row is by then; for distinct candidates: those old enough without a marker for their task, or last left by their worker, end under the new task id with message and marker, all others keep row and marker unsent, and the counters are their numbers |
| ResearchDesk.Desk.RecoverOne | backend/app/worker.py:640-708 | marking, saving the copy, publishing and saving the copy back amount to one recovery from that copy |
| ResearchDesk.OnlyCandidates | backend/app/worker.py:590-712 | the recovery loop touches no run outside its candidates |
| ResearchDesk.EachOnItsOwn | backend/app/worker.py:614-707 | each candidate ends as if it had been the only one |
| ResearchDesk.RowAfterTurn | backend/app/worker.py:614-707 | where a candidate's row stands after its turn, for every copy and outcome |
| ResearchDesk.RecoveryKeepsEventsIff | backend/app/worker.py:614-707 | the whole loop loses no event if and only if every row it writes had gained none since its copy was read |
| ResearchDesk.RecoveryKeepsInv | backend/app/worker.py:590-712 | a loop running by itself over rows as they were read keeps all invariants |
| ResearchDesk.TallyAddsUp | backend/app/worker.py:613-712 | scanned candidates are recovered, failed or intact, and nothing else |
| ResearchDesk.MigrationKeepsInv | backend/app/research_priority_migration.py:34-143 | a migration running by itself keeps all invariants |
| ResearchDesk.Desk.RedispatchMigrated | backend/app/research_priority_migration.py:80-131 | marking, saving, publishing and undoing amount to one migration step |
| ResearchDesk.WholeLoop | backend/app/worker.py:605-712 | which distinct candidates are republished, how their rows, markers and messages end, and how they are counted |
| ResearchDesk.WholeMigration | backend/app/research_priority_migration.py:50-143 | which distinct rows are redispatched, how their rows, markers and messages end, and what is reported |
| Dispatch.AlwaysSound | backend/app/worker.py:590-712 | over every interleaving, without any condition: task ids are drawn once and sent at most once, triggers do not repeat, merged and cancelled rows stay so, no row changes what it is for |
| Dispatch.GoodIffHarmless | backend/app/worker.py:640-700 | what a single write without the lock can damage: one active run per asset, well-pointing merged runs and every event are kept if and only if the copy lists all that has joined and wakes up no run beside an active one |
| DispatchRuns.CancelledForever | backend/app/storage.py:592-606 | over every interleaving a cancelled row stays cancelled |
| Acceptance.ListedForGoodIff | backend/app/worker.py:640-700 | an event a run lists now is listed in every state that any processes can reach from here if and only if no open process holds a copy of the run without it that could still be written |
| Acceptance.AcceptedExactlyOnce | backend/app/worker.py:1414-1456 | when an event is accepted, the accepting run lists it exactly once in every state that can follow if and only if no process open at that moment holds such a copy; the merged record never changes |
| Admission.StepKeepsOrderly | backend/app/worker.py:1390-1628 | whatever acts, admissions under their lock, workers, cancellations and crashes keep one active run per asset and every event; only rewrites without the lock must not have missed a joined event or a status |
| Admission.OneActiveAndNothingLost | backend/app/worker.py:1390-1628 | so does every execution from the empty store whose recoveries and requeueings of asset runs meet unchanged rows |
| Admission.AdmissionNeedsNoCondition | backend/app/worker.py:1390-1628 | enqueuing, reserving, working, cancelling, crashing, retrying and reporting, in any interleaving with the lock held to the end: never two active runs of an asset, never an event lost, without any condition |
| Admission.AlwaysOneActive | backend/app/worker.py:1406-1478 | the first half also holds, without any condition, when the lock ends with the first commit |
| Admission.AdmissionLosesNothingIff | backend/app/worker.py:1556-1593 | and then no event is lost if and only if no admission that has lost its lock marks its run failed after an event has joined it |
| Admission.ListedIffNotRefused | backend/app/worker.py:1414-1456 | a merged record is added to a run that lists its event if and only if the save of the join was not refused |
| Admission.MergedPointWellIff | backend/app/worker.py:1414-1456 | over every such execution all merged records point at runs that list their event if and only if no admission adds its record after the run it joins was cancelled between being read and being saved |
| Admission.AlwaysInv | backend/app/worker.py:1390-1628 | in the executions in which that does not happen all invariants hold in every state: one active run per asset, triggers once, merged runs pointing at runs that list their event, no id sent twice |
| Admission.AcceptedExactlyOnce | backend/app/worker.py:1414-1456 | in every later state of such an execution the accepting run lists the event exactly once |
| Fencing.SupersededForever | backend/app/worker.py:3676-3680 | a superseded message for which no open process holds a copy stays superseded over every interleaving, and delivering it changes nothing |
| Fencing.SupersededForGoodIff | backend/app/worker.py:640-700 | a superseded message is superseded for good if and only if no open process still holds a copy that would bring its id back |
| Fencing.OnlyOneWorksIff | backend/app/worker.py:3672-3690 | at the moment a message begins work on a run that has a task id: no other id drawn so far is ever current again, in any execution, if and only if no open process holds a copy that would bring one back |
| Fencing.OnlyOneWorks | backend/app/worker.py:3672-3690 | a sufficient case: no other id drawn by then begins work on the run as long as copies are only written over unchanged rows |
| Fencing.UndoIsCleanIff | backend/app/worker.py:662-700 | an undo finds the row as it was saved if and only if nobody has written it since, which is, if only the new message could, if and only if that message has not begun work before the undo |
| Fencing.FailedRecoveryRestores | backend/app/worker.py:686-700 | a recovery or migration that gives up writes the row back exactly as it read it, whatever happened in between, unless it was cancelled |
| Interference.UninterruptedDispatch | backend/app/worker.py:640-707 | read, mark, save, publish and undo without interruption amount to the one step of the store's description, for every kind of dispatch and every outcome of publishing |
| Interference.UninterruptedJoin | backend/app/worker.py:1414-1456 | so do the two saves of an admission that joins the active run |
| Interference.JoinIsOverwritten | backend/app/worker.py:605-660 | an execution in which a recovery saves the copy it read before an event joined: the event is lost |
| Interference.JoinIsUndone | backend/app/worker.py:1556-1593 | an execution in which an admission has lost its lock with its first commit, an event joins its run, and the failed publication marks the run failed without the event |
| Interference.JoinIsRefused | backend/app/worker.py:1414-1456 | an execution in which the run is cancelled during admission: the merged record points at a run that does not list its event |
| Interference.UndoAfterDelivery | backend/app/worker.py:662-700 | an execution in which the new message begins work before the undo, and the old one begins work after it |
| Interference.TwoMessagesWithoutTaskId | backend/app/worker.py:1596-1628 | an execution that ends with two messages of a reserved run that both pass the guard |
| Interference.RedeliveryAfterCompletion | backend/app/worker.py:3799-3830 | an execution after which the guard alone lets a second run of an asset become active |
| Interference.UninterruptedRequeue | backend/app/services/research_lifecycle.py:160-190 | so does requeueing a run whose worker has lost its lease, whenever the description allows it |
| Interference.AdmissionCanBegin | backend/app/worker.py:1406-1478 | an admission can begin exactly when its step is allowed and nobody holds the lock of the asset |
| Interference.ReportCanBegin | backend/app/worker.py:2224-2552 | report, retry, refresh and migration can begin exactly when their step is allowed |
| Interference.RecoveryCanBegin | backend/app/worker.py:605-619 | a recovery can begin for every queued row, as it decides by the copy it has read |
| Cutover.Bridge.ArchiveLists | backend/app/extract_queue_cutover.py:159-173 | every list is renamed as a whole; a collision or crash loses nothing |
| Cutover.DecodeAll | backend/app/mapping_queue_cutover.py:31-68 | one bad message stops the whole cutover |
| Cutover.InsertKeepsUnique | backend/app/mapping_queue_cutover.py:107-150 | inserting without conflict keeps one active job per dedupe key |
| Cutover.Bridge.InsertOne | backend/app/extract_queue_cutover.py:106-156 | one insertion adds the message's own job with its work, or finds one that has its id or is active under its dedupe key at that moment, although other processes change jobs in between |
| Cutover.Bridge.InsertJobs | backend/app/extract_queue_cutover.py:94-157 | the transaction gives every message such a job or changes nothing; queued are exactly the inserted ones, queued + existing = messages |
| Cutover.Bridge.Migrate | backend/app/extract_queue_cutover.py:80-173 | wherever it stops, lists stay or become archives; when it is done every message has a job: its own, with its first argument, keyword arguments and priority, or one that had its id or was active under its dedupe key; it refuses exactly for a bad message, an id used twice, or a missing row |
| Cutover.Bridge.RepeatedCutover | backend/app/mapping_queue_cutover.py:78-167 | the same over any number of runs, crashed and failed ones included, with other processes at work in between |
| Cutover.ConservesTwice | backend/app/extract_queue_cutover.py:80-173 | what each of two runs conserves, both together conserve |
| Cutover.DecodeMeans | backend/app/extract_queue_cutover.py:29-55 | a message is decoded exactly if it has the lane's task, a UUID as id and as first argument, and readable keyword arguments; its job works on that argument, with its priority or 5 |
| Cutover.DecodedInOrder | backend/app/extract_queue_cutover.py:58-74 | all messages are decoded in order, or the cutover stops |
| Cutover.ContentsInOrder | backend/app/extract_queue_cutover.py:59-70 | the messages are those of the lists, one list after the other |
| Cutover.ContentsFromLists | backend/app/extract_queue_cutover.py:59-70 | every message read is in one of the lists |
| Cutover.Bridge.DiscoverMessages | backend/app/extract_queue_cutover.py:58-74 | reading fails exactly for a bad message or an id used twice |
| QueueSplit.PlanMessages | backend/app/queue_migration.py:45-67 | a plan exists exactly when every message is readable and has one of the three tasks, the destinations are readable, and no id occurs twice; the destinations are the lanes' shares |
| QueueSplit.Broker.ApplyPlan | backend/app/queue_migration.py:80-114 | the transaction happens completely or not at all, and exactly when the source is as planned and untouched |
| QueueSplit.PushedReversed | backend/app/queue_migration.py:102-106 | pushing the reversed share to the left puts it before the old messages in list order |
| QueueSplit.ConsumptionOrder | backend/app/queue_migration.py:102-106 | workers take a destination's old messages first, then its share in the source's consumption order |
| QueueSplit.SharesConserve | backend/app/queue_migration.py:50-58 | the shares divide the source without loss or duplication |
| QueueSplit.SplitIsSound | backend/app/queue_migration.py:80-114 | source emptied and backed up, messages conserved, order kept, whatever the destinations hold by then |
| QueueSplit.CountsMatch | backend/app/queue_migration.py:111-113 | the final count check never fails on a plan that planning accepted |
| QueueSplit.SortIntoLanes | backend/app/queue_migration.py:48-58 | the shares in list order, or the error of the first message that cannot be moved |
| QueueSplit.CollectIds | backend/app/queue_migration.py:61-65 | the ids a destination holds, or the error of an unreadable message |
| QueueSplit.ShareMeans | backend/app/queue_migration.py:15-19 | asset resolution goes to the mapping lane, both kinds of research to the research lane, each message once and in order |
| QueueSplit.FirstUnknown | backend/app/queue_migration.py:36-56 | the first message that cannot be moved decides the error |
| Slots.InstanceSlots | backend/app/llm.py:252-258 | every instance gets its own interval of slots |
| Slots.SlotsAreDisjoint | backend/app/llm.py:252-258 | different instances never share a slot |
| Slots.SlotsCoverTheLane | backend/app/llm.py:252-258 | together the instances have exactly the slots below the total |
| Slots.CapacitiesAddUp | backend/app/services/model_instances.py:81-96 | the instances' capacities add up to the lane's capacity |
| Slots.OverlapIsHandedOutTwice | backend/app/llm.py:146-156 | with overlapping tuples one slot is handed out twice |
| Slots.LocalSlots.Acquire | backend/app/llm.py:146-231 | a slot is taken from the front of its pool, or there is none free; free and held slots stay a division of the tuple |
| Slots.LocalSlots.Release | backend/app/llm.py:226-231 | the slot goes to the end of its queue |
| Slots.NoDoubleHold | backend/app/llm.py:146-156 | no slot is held twice in a lane when the tuples asked for are equal or disjoint |
| Slots.LocalSlots.SlotQueue | backend/app/llm.py:146-155 | a pool is created full, once |
| SlotRuns.AlwaysSound | backend/app/llm.py:146-231 | over every interleaving exactly the processes between asking and giving back hold a slot, the one they were granted, and pools stay divided |
| SlotRuns.LeftHoldsNothing | backend/app/llm.py:224-231 | a process that has left its block, by returning or raising, holds nothing, and its slot is free or somebody else's |
| SlotRuns.BlockHoldsItsSlot | backend/app/llm.py:220-231 | a process in its block holds its slot, and nobody else does |
| SlotRuns.AllSlotsComeBack | backend/app/llm.py:224-231 | when everybody has left, every pool has all its slots |
| SlotRuns.NoSlotHeldTwice | backend/app/llm.py:252-258 | as callers ask for their instance's slots, no slot of a lane is ever held twice |
| SlotLeases.LeasesAreExact | backend/app/llm.py:170-219 | with renewals inside the lease, in every run the locked slots are exactly the held ones |
| SlotLeases.NoDoubleHold | backend/app/llm.py:170-219 | then no slot is held twice |
| SlotLeases.LateRenewal | backend/app/llm.py:195-202 | a second caller gets the slot of a silent one exactly from the end of the lease on |
| SlotLeases.LeaveReturnsTheSlot | backend/app/llm.py:210-219 | leaving frees the caller's slot and no other |
| SlotLeases.Locks.TryAcquire | backend/app/llm.py:178-188 | a sweep takes the first free slot, or finds all of them locked |
| SlotLeases.OnlyOwnersRenew | backend/app/llm.py:195-222 | a renewal extends, and leaving releases, the lock exactly while the caller still owns it |
| SingleFlight.AlwaysSingle | backend/app/main.py:164-215 | over all interleavings the flag is up exactly when one refresh is pending or running |
| SingleFlight.SnapshotStays | backend/app/main.py:164-215 | a snapshot, once there, stays |
| SingleFlight.NeverBlocksAgain | backend/app/main.py:193-215 | from then on no caller waits, refreshes itself or is turned away |
| SingleFlight.AnswersAreRight | backend/app/main.py:193-215 | who waits, who starts a refresh, and how old an answer can be |
| SingleFlight.StaleMeansRefreshing | backend/app/main.py:735-747 | marking stale leaves exactly one refresh under way |
| SingleFlight.ResetKeepsSingle | backend/app/main.py:237-241 | a reset keeps single flight if and only if no refresh is in flight |
| SingleFlight.SnapshotCache.CachedSnapshot | backend/app/main.py:193-215 | the caller's critical section is that step with that answer |
| SingleFlight.SnapshotCache.StoreSnapshot | backend/app/main.py:166-169 | a stored snapshot replaces the old one while the flag stays up |
| SingleFlight.SnapshotCache.Woken | backend/app/main.py:197-215 | after the wait the caller is answered or refreshes, and never waits again |
| SingleFlight.SnapshotCache.EndRefresh | backend/app/main.py:180-183 | stored or failed, a refresh clears the flag |
| SingleFlight.SnapshotCache.MarkStale | backend/app/main.py:735-747 | the snapshot ages, and a refresh is started unless one is under way |
| SingleFlight.LoadedCountsAsOld | backend/app/main.py:245-256 | a persisted snapshot is served like a cached one, but counts as old from the start |
| ContractDiff.Differences | backend-go/cmd/contract-diff/main.go:103-166 | for all documents, paths and budgets: the first `limit` entries of the unbounded list |
| ContractDiff.AllMeansDescribes | backend-go/cmd/contract-diff/main.go:103-166 | an entry is in the unbounded list if and only if its path leads in both documents to values that differ as it says |
| ContractDiff.AllDistinct | backend-go/cmd/contract-diff/main.go:103-166 | no mismatch is listed twice |
| ContractDiff.SilentIffEqual | backend-go/cmd/contract-diff/main.go:103-166 | with a positive budget the comparison is silent exactly on equal documents |
| ContractDiff.SortedKeysUnique | backend-go/cmd/contract-diff/main.go:116-128 | sorting makes the result independent of map iteration order |
| ContractDiff.CollectKeys | backend-go/cmd/contract-diff/main.go:116-127 | the keys of both objects, each once |
| ContractDiff.CompareKeys | backend-go/cmd/contract-diff/main.go:129-142 | the loop over keys threads the remaining budget correctly |
| ContractDiff.CompareItems | backend-go/cmd/contract-diff/main.go:143-158 | so does the loop over the common prefix |
| ContractDiff.Canonicalize | backend-go/cmd/contract-diff/main.go:195-218 | all volatile fields go, at every depth, and nothing else |
| ContractDiff.CanonicalEqual | backend-go/cmd/contract-diff/main.go:195-218 | canonical forms are equal exactly when the documents agree outside volatile fields |
| ContractDiff.ContractHolds | backend-go/cmd/contract-diff/main.go:73-85 | the comparison of canonical forms is silent exactly on such documents |
| ContractDiff.CanonicalIdempotent | backend-go/cmd/contract-diff/main.go:195-218 | canonicalising twice is canonicalising once |
| ContractDiff.FirstByteDifference | backend-go/cmd/contract-diff/main.go:92-101 | the index is the length of the longest common prefix, with the windows around it |
| ContractDiff.VolatileMeans | backend-go/cmd/contract-diff/main.go:195-204 | clocks and durations are volatile everywhere, the portfolio's `as_of` only there |
| Calibration.ReferenceIdentity | backend/app/evaluation.py:228-237 | the reference Brier score is (1 - sum of squared frequencies) / 3 |
| Calibration.ReferenceIsBestConstant | backend/app/evaluation.py:228-238 | every constant forecast is worse by a third of its squared distance from the frequencies; the reference is the only best one |
| Calibration.ConstantHasNoSkill | backend/app/evaluation.py:238 | a constant forecaster never has positive skill |
| Calibration.BrierBounds | backend/app/evaluation.py:219-226 | the Brier score of exact probability vectors lies in [0, 2/3]; of accepted ones hardly above |
| Calibration.BucketsPartition | backend/app/evaluation.py:240-243 | the ten buckets count every forecast once |
| Calibration.CalibrationErrorBounds | backend/app/evaluation.py:244-254 | the expected calibration error lies between the distance of accuracy from mean confidence and 1 |
| Calibration.BinTermIsGap | backend/app/evaluation.py:244-252 | a bin's term is its absolute summed gap over all samples |
| Calibration.ExpectedCalibrationError | backend/app/evaluation.py:240-253 | filling the dictionary of bins and adding up gives the error over the ten buckets |
| Calibration.ProbabilityCalibration | backend/app/evaluation.py:178-262 | the evaluation succeeds exactly for at least one case, all valid; its figures are those of the cases: Brier scores, hits of the first most probable label, gaps over ten buckets, agreeing scores |
| Calibration.Summarise | backend/app/evaluation.py:216-262 | the figures computed from the collected lists and counters are those of the report |
| Calibration.ReportIsSound | backend/app/evaluation.py:215-262 | every report has Brier and reference scores in range, skill at most 1, the error bounds, and shares between 0 and 1 |
| Calibration.ConsistentMeansClose | backend/app/evaluation.py:209-213 | a consistent case's scores are close to what its probabilities say |
| Calibration.PassesIff | backend/app/evaluation.py:265-269 | an evaluation passes exactly when every minimum is met and every maximum is kept |
| Calibration.ErrorBounds | backend/app/evaluation.py:219-226 | the squared error of one forecast lies in its range |
| Calibration.PredictedIsFirstTop | backend/app/evaluation.py:207-208 | no label has a greater probability than the predicted one, and every earlier one a smaller |
| Calibration.ForecastsMean | backend/app/evaluation.py:188-213 | the evaluation goes on exactly if all cases are valid, and scores each of them |
| Calibration.FirstBadCase | backend/app/evaluation.py:193-206 | the first case that is not valid decides the error |
| Calibration.ReportOnCases | backend/app/evaluation.py:214-275 | every figure of the report in terms of the cases, without the intermediate lists |
| Calibration.RoundedMeans | backend/app/evaluation.py:212 | rounding goes to the nearest integer, a half to the even neighbour |
| Calibration.BucketMeans | backend/app/evaluation.py:240-243 | bucket b holds the confidences from b tenths to below b + 1 tenths, the last one also 1 |
| Calibration.FiguresByName | backend/app/evaluation.py:255-275 | the bounds can name eight figures |
| StageMetrics.ClusterCounts | backend/app/evaluation.py:115-126 | the nested loops count the pairs by labelled and predicted answer, each pair once |
| StageMetrics.CountersSplitThePairs | backend/app/evaluation.py:115-126 | true positives with misses are the labelled pairs, with false alarms the predicted ones |
| StageMetrics.CountHits | backend/app/evaluation.py:93-113 | the counters of the record loop |
| StageMetrics.NoErrorsMeansPerfect | backend/app/evaluation.py:98-112 | the counters show no error exactly when no record has one |
| StageMetrics.F1IsDice | backend/app/evaluation.py:76-77 | the F1 score from precision and recall, empty cases included, is the Dice coefficient of the counters |
| StageMetrics.CompositeBounds | backend/app/evaluation.py:138-145 | the composite score lies in [0, 1] and is 1 exactly for a non-empty flawless evaluation |
| StageMetrics.WalkForward | backend/app/evaluation.py:306-329 | the split divides the records at seven tenths in time order, and is reported chronological exactly when every training time is before every held-out time |
| StageMetrics.PairsMean | backend/app/evaluation.py:108-119 | two records are labelled as one cluster when both name the same one, not the empty name |
| StageMetrics.CompositeWeights | backend/app/evaluation.py:121-146 | the weights of the composite score, and what an empty denominator counts as |

## Left out

- Calibration.ProbabilityCalibration: reals without rounding to six digits; the program score and its probability vector of each case are inputs.
- Calibration.ExpectedCalibrationError: adds the bins in bucket order instead of dictionary order, which makes no difference over exact reals.
- StageMetrics.WalkForward: the cut is seven tenths rounded down exactly, not through a floating-point product; the extraction service that yields each record is a parameter of the record.
- TargetChanges.EventTargetChanges: reports arrive filtered and with their impacts already mapped to target keys; alias resolution, trends and display fields are not modelled.
- UnionFeed.ScanConclusions: one method stands for both scans, which differ in the rows they read and in the fields shown.
- ContractDiff.Canonicalize: returns the canonical document instead of deleting map entries in place, so sharing of sub-documents is not captured.
- ContractDiff.Differences: entries are values, not rendered lines; rendering and the shortening of long values are not modelled.
- CursorCodec.CursorRoundTrip: relative to the standard conversions being faithful, as `CursorCodec.Faithful` spells out.
- ExtractionQueue.WorkList.Update: per-instance assignment records are not modelled, nor the loss of the stored list after its twelve hours.
- ScanGate.ScanRedis.EnqueueScan: other processes act between the first look and taking the gate; between later commands they do so only in the lemmas over runs.
- ScanGate.ScanRedis.CompleteScan: result counters other than the number discovered are not modelled; the polling loop of a paused scan appears only through its steps.
- Admission.AlwaysInv: compaction of queued runs is not among the processes; with one active run per asset its groups have a single member.
- ResearchDesk.Desk.RecoverOrphans: candidates are given in the order of their creation, without the limit of 5,000 event reports; nobody else acts during this method, which `Dispatch` adds.
- ResearchDesk.RecoveryKeepsInv: for a loop that runs by itself over rows as they were read; `Admission.OneActiveAndNothingLost` and `Acceptance.ListedForGoodIff` have the interleavings.
- ResearchDesk.MigrationKeepsInv: for redispatches that nobody interrupts; `Admission.StepKeepsOrderly` and `Dispatch.AlwaysSound` have the interleavings.
- Research.FailedMigration: for a migration nobody interrupts; `Fencing.FailedRecoveryRestores` has the other cases.
- Dispatch.GoodIffHarmless: speaks of one write at the moment it is made; `Admission` and `Acceptance` speak of whole executions.
- Fencing.OnlyOneWorks: one direction only; `Fencing.OnlyOneWorksIff` is exact.
- Research.DeliveryKeepsOneActive: the start of a delivery reads and writes its row in one step, as in all modules.
- Research.EnqueueMeans: the steps taken over from the event and the phase names of retries and refreshes are not modelled.
- Cutover.Bridge.Migrate: JSON and base64 decoding, the text of the stored payload and the digest function are parameters; the key scan reports every list.
- QueueSplit.Broker.ApplyPlan: the lifetime of the backup and its metadata record are not modelled.
- Slots.LocalSlots.Acquire: waiting for a slot is not modelled, only its outcome; the waiting list shown to operators is left out, for leased locks too.
- SingleFlight.AlwaysSingle: starting a background thread is assumed to succeed.
- Full event research, asset mapping and its backfill, the Go job insertion outside the cutover, and the one-time timestamp correction: the same patterns with less to prove.
- Services (scoring, trends, model queue, lifecycle reports): only what the protocols ask of them.
- Model prompts, HTTP and market-data adapters, notifications, schema upgrades, SQL text, the front end: input and output without a local property.
- Liveness: that a run whose dispatch crashed between saving and publishing is eventually recovered.
- Status writes of a failing scan that no longer owns the gate: they are allowed in the runs of `ScanGate`, not excluded.
