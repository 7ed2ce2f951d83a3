# Tokenleader: verified core

Tokenleader collects token usage from coding agents. A daemon on each machine reads session logs and
Cursor's dashboard and posts events; a server stores them, keeps a day-grain rollup for its statistics,
mirrors Cursor's team API, and watches over the fleet of daemons. This project models the parts of that
system whose correctness rests on more than one function, and proves what they promise.

The modules follow the source files:

- **Store and rollup** (`src/server/db.ts`). `Rollup` defines the tables and, phase by phase, what each
  maintenance step does to them; `Stores` holds the class whose methods run those steps with the
  source's loops and are proved equal to the definitions; `RollupProofs`, `Audits` and `KeyCollisions`
  prove that every run keeps the rollup equal to a group-by of raw events, and exactly when a batch
  would not; `StoredColumns` says what is stored and added up in the posted events' own columns, and
  `AuditColumns` what the audit compares;
  `EventTables` keeps the events as rows under their unique index; `Windows` proves that
  reading the rollup over a millisecond window equals scanning events.
- **Resumable walks** (`src/server/cursor-mirror.ts`, `src/daemon/cursor-sync.ts`,
  `src/parser/cursor-api.ts`). `PageWalk` treats a newest-first, paged remote list that grows between
  requests; `CursorMirrors` and `CloudSyncs` are the two clients; `MirrorSafety` and
  `CloudSafety` prove what their watermarks promise over every interleaving, `MirrorProgress`,
  `MirrorWalks` and `CloudWalks` that walks go on where they stopped and end; `MirrorResets`,
  `CloudStarts` and `CloudWalks` state exactly when three of those promises break. `Numbers` and `Options` are shared.
- **Reading logs** (`src/parser/read-slice.ts`, `cursor-jsonl.ts`, `codex.ts`). `ReadSlices` is the
  windowed line reader, `Transcripts` and `TranscriptLines` the line-numbered transcript parser, `CodexLedgers` and
  `CodexParsers` the cumulative ledger parser; `CodexTotals` proves what it bills, `CodexSplits`,
  `CodexPasses` and `CodexCuts` where a read may be cut, and `CodexRereads` extends that to any number
  of reads.
- **Ingestion** (`src/daemon/transport.ts`, `tick.ts`, `state.ts`, and the ingest route). `Transports`
  and `Ticks` are the sender and the tick; `Deliveries` says what a post amounts to; `IngestSafety` proves, from the bytes of the logs to the
  rows of the store, that nothing a saved offset has passed is lost and nothing is stored twice,
  `IngestReach` that touched files are read to their end, and `IngestTranscripts` what the reads of a transcript add up to over such runs.
- **Fleet** (`src/server/db.ts`, `src/server/fleet.ts`, `src/daemon/watchdog.ts`). `Directives`;
  `Devices`, with what its operations keep in `DeviceSafety` and change in `DeviceChanges`;
  `FleetSweeps`, with the exact condition of each state in `FleetVerdicts`, spacing over runs in
  `FleetRuns` and everything a visit does in `FleetHistory`; and `Watchdogs`, with its safety, and its
  deadlines, escalation and fuse in `WatchdogDeadlines`.

Operations that the source performs by changing state are methods of a class, or methods with loops,
whose postconditions equate the new state with a function of the old one; laws are lemmas about those
functions and about runs of them. Times, page replies, post outcomes, decoded lines and directory
listings are inputs.

## Findings

Nine promises hold only under a condition the source does not check. Each is stated with the condition,
as an if-and-only-if, and with an input that fails it.

- **Clearing events during a mirror tick.** `/admin/clear` resets the watermark while a tick may be
  waiting for a page (`src/server/main.ts:2481-2485`). That tick keeps its old start date. However many
  pages it still fetches, and whatever daemons post meanwhile, no harm is done if it is cut short or
  loses its insert, if it brings no usable event after the reset, or if no mappable event older than
  its window is missing from the store when it ends; otherwise the watermark it ends with lies above
  history that was just deleted and that the mirror will not ask for again
  (`MirrorResets.ResetMidTickIff`, `MirrorResets.ResetMidTickLosesHistory`). A reset between ticks, or
  during a walk of the full history, is safe and part of `MirrorSafety.WatermarkIsSafe`.
- **An empty first cloud walk.** As long as no event was seen, a sync starts at the clock of the last
  successful one less the overlap (with none, at a fixed look-back), or where a truncated walk began;
  so each completed sync that fetches nothing moves that start date on. A completed sync that began
  without a watermark and fetched something saves one with a mappable event missing below it exactly
  if one that is older than its start date has not been posted (`CloudStarts.EmptyHistoryIff`,
  `CloudStarts.EmptySyncMovesWindow`, `CloudStarts.EmptyHistoryLosesOne`; for whole runs
  `CloudStarts.RunSafeIff`).
- **A long incremental walk never catches up.** An incremental sync moves its watermark only when its
  walk is through, so as not to skip the older tail (`src/daemon/cursor-sync.ts:131-140`), and then to
  the newest event of its own pages. A walk that takes several syncs fetches the newest pages first, so
  the watermark moves to the newest event of the last sync's pages, if that is newer
  (`CloudWalks.WatermarkMovesIff`). From there the next walk takes as many syncs, and the pages of its
  last hold nothing newer: while the list stands still every further walk posts the same events again
  and the watermark never moves. A walk that fits one sync does catch up
  (`CloudWalks.LongWalkNeverCatchesUp`, `CloudWalks.BacklogStandsStill`). Nothing is lost by it
  (`CloudSafety.CloudWatermarkIsSafe`).
- **A rescan reports transcripts anew.** The one-time rescan sets offsets back to 0 but keeps the line
  index (`src/daemon/state.ts:93-104`), which the tick hands to the parser
  (`src/daemon/tick.ts:327-339`). The comment above it says that events already sent are filtered;
  transcript events get new message ids unless the index was 0 or the file has none
  (`Transcripts.RescanKeepsIdsIff`, `Transcripts.RescanRepeats`). Without a rescan the ids are those of
  one read over any run (`IngestTranscripts.TranscriptsAreOneRead`).
- **NUL in a mirrored handle.** insertMany collects deltas under NUL-separated text. The ingest route
  admits no NUL in a handle; the mirror's handle map only warns about unusual characters. The rollup
  ends exact iff no two rows the batch adds share a delta key across groups, unless both are
  recomputed anyway (`KeyCollisions.InsertExactIff`, `KeyCollisions.NulHandlesCollide`).
- **Codex reads that are cut.** Two reads agree with one iff three things hold
  (`CodexCuts.SplitReadsAgreeIff`), and any number of reads iff they hold at each cut
  (`CodexRereads.ReadsAreOneReadIff`). A cumulative was carried or seen before the cut, or the first
  later one differs from the totals carried over; or else the second read takes for a replay what one
  read does not (`CodexRereads.CumulativeIsNeeded`). The last event before the cut and the first after
  it carry different timestamps; or else two events get one id (`CodexRereads.SharedStampCollides`).
  And if the file is read from its start and its first event precedes every named model, the
  look-ahead answers the same model, the fallback included, before and after the file grew; or else
  events change their label (`CodexRereads.LookAheadIsNeeded`).
- **Invalid events hide valid ones.** A tick posts the first event of each key it collects
  (`src/daemon/tick.ts:93-106`) and the server drops that one if it fails validation, so a valid event
  behind it is never sent (`IngestSafety.PostedIffFirstValid`, `IngestSafety.ValidBehindInvalid`).
- **The fuse mends too soon.** Half an hour of fresh heartbeats is to mend the watchdog's fuse
  (`src/daemon/watchdog.ts:397-407`). The half hour counts from the first heartbeat, or from the last
  that ended a silence that was due, not from the moment the fuse blew; and any firing with a new
  heartbeat, or without one, mends it then (`WatchdogDeadlines.MendsIff`). A daemon that ran for half
  an hour and then crashes in a loop blows the fuse at the third respawn and mends it at the fourth
  (`WatchdogDeadlines.MendsAtOnce`).
- **The audit's blind spot.** After models were renamed in the events table alone, in any rows of any
  store, the audit passes iff no user's sum of fingerprints moved (`src/server/db.ts:896-915`,
  `Audits.AuditMissesRename`); for a single row that is: iff both names have one fingerprint, although
  the rollup is wrong (`Audits.AuditMissesOneRename`, `Audits.RenameGoesUnseen`).

## Model

| member | source | states |
|---|---|---|
| `Events.DayExpressionsAgree` | src/server/db.ts:948-951 | The day index the SQL computes with truncating `/` and `%` equals floor division for every integer timestamp, negative ones included |
| `Events.DayRange` | src/server/db.ts:2327-2333 | The millisecond range the repair statement scans for a day holds exactly the timestamps of that day |
| `Tallies.TotalSplits` | src/server/db.ts:1329-1345 | Adding up a table's rows part by part gives the total of the whole, which is what lets deltas be merged into sums |
| `DeltaKeys.KeysCollide` | src/server/db.ts:2410-2418 | Two groups share a delta key exactly when day, type and stored flag agree and only the border between user and model moved |
| `DeltaKeys.KeyTextInjective` | src/server/db.ts:2410-2418 | For NUL-free handles the delta key determines the group |
| `RollupProofs.AcceptKeepsPending` | src/server/db.ts:2392-2452 | Mid-batch, every cell that is not queued holds, together with its pending delta, the aggregate of the rows so far; taking one more row keeps that |
| `RollupProofs.ReconcileKeepsCell` | src/server/db.ts:2355-2368 | The reconcile delete changes no cell outside the user-days it queues |
| `RollupProofs.InsertIsExact` | src/server/db.ts:2335-2462 | After insertMany the rollup is exact and the repair queue empty, for every batch with NUL-free handles and whatever was queued before |
| `RollupProofs.DrainIsExact` | src/server/db.ts:2327-2333 | Draining the queue turns a rollup that is exact outside the queued user-days into an exact one |
| `RollupProofs.ClearUserIsExact` | src/server/db.ts:2744-2753 | Clearing one user leaves every unqueued cell exact |
| `AuditColumns.ClearsExactly` | src/server/db.ts:2744-2753 | Clearing a user removes exactly that user's events, cells and queued days |
| `RollupProofs.RebuildIsExact` | src/server/db.ts:2179-2201 | A rebuild is exact from any rollup, however wrong |
| `RollupProofs.ExactIsGrouped` | src/server/db.ts:71-90 | There is only one exact rollup for given events: the group-by of the events table |
| `RollupProofs.ExactSpelledOut` | src/server/db.ts:71-90 | In an exact rollup a cell exists iff its group has rows, and holds their number, token sums, stored cost and newest timestamp |
| `RollupProofs.InsertStores` | src/server/db.ts:2392-2413 | Every posted event's key is stored afterwards, and no row leaves except local Cursor rows the batch covers |
| `StoredColumns.InsertHoldsColumns` | src/server/db.ts:2338-2413 | After insertMany the table holds under each key the row it kept, else all fourteen columns of the first posted event with that key, a missing message type read as assistant; it drops exactly local Cursor assistant rows that lie between two cloud Cursor events of their user in the batch |
| `StoredColumns.InsertGrows` | src/server/db.ts:2414-2457 | In an exact store insertMany raises each token, reasoning and cost column of each group by the sum of that column over the posted events it takes into the group, and the row count by their number |
| `RollupProofs.PostTwiceKeepsRows` | src/server/db.ts:2338-2462 | Posting a batch again changes no row, even when its own span deletes rows it re-inserts |
| `RollupProofs.PostTwice` | src/server/db.ts:2338-2462 | Posting a batch twice leaves the same rows, rollup and queue as posting it once |
| `KeyCollisions.UnambiguousIff` | src/server/db.ts:2410-2452 | Whether the loop misfiles a row can be told before the call: some two rows the batch adds share a delta key across groups and not both user-days are queued anyway |
| `KeyCollisions.MergeExactIff` | src/server/db.ts:2410-2457 | For arbitrary handles: before the final drain every unqueued cell is exact iff no two added rows share a delta key across groups |
| `KeyCollisions.InsertExactIff` | src/server/db.ts:2335-2462 | For arbitrary handles insertMany ends exact iff no two rows it adds share a delta key across groups, those aside whose user-days are recomputed anyway |
| `KeyCollisions.NulHandlesCollide` | src/server/db.ts:2410-2418 | Such batches exist for any three texts: handle u with model v NUL w, and handle u NUL v with model w, leave the rollup wrong |
| `Windows.CountedOnce` | src/server/db.ts:983-998 | Each timestamp of a window lies in exactly one of the interior and the two slivers, any other in none; degenerate, same-day and negative windows included |
| `Windows.CellsAreRows` | src/server/db.ts:1037-1064 | Adding up any cells of an exact rollup gives the sum of the rows behind them |
| `Windows.SourceIsScan` | src/server/db.ts:1037-1064 | Whole days from the rollup plus the slivers equal one scan of the events with since <= timestamp < until, for every window, selection and exact store |
| `Windows.SourceModelsAreScanModels` | src/server/db.ts:1554-1624 | COUNT(DISTINCT model) over the rollup source equals the one over raw events |
| `Windows.SourceIsSums` | src/server/db.ts:1037-1064 | For any selection by group columns the rollup source gives the number, each column's sum and the newest timestamp of the selected rows of the window |
| `Windows.LeaderboardRowIsScan` | src/server/db.ts:1555-1577 | Column by column over the user's rows of the window: token sums, event count and distinct models over assistant rows, messages by type, newest timestamp over all |
| `Windows.UserModelRowIsScan` | src/server/db.ts:1590-1624 | Column by column over the user's assistant rows of one model: count, token sums and stored cost; the derived columns over those without a positive cost of their own |
| `Windows.BucketIsScan` | src/server/db.ts:1037-1064 | A bucketed series equals the scan in which each event is labelled by its own day, for any labelling of days |
| `Audits.ExactPassesAudit` | src/server/db.ts:2238-2258 | An exact rollup passes the per-user audit: counts, sums, day sum, assistant count and model fingerprint |
| `Audits.CellWeightsAreRowWeights` | src/server/db.ts:1414-1426 | Weighting a cell by its row count gives the weighted sum over its rows, for each of the audit's weights |
| `AuditColumns.MismatchedIff` | src/server/db.ts:2238-2258 | The audit reports exactly the users with rows on one side only, or for whom one of ten columns adds up to another value over the user's events than over the cells: rows, six sums, days, answers, or model weights |
| `AuditColumns.AuditsExactly` | src/server/db.ts:2216-2289 | An audit changes no event and empties the queue, and groups the events anew iff it was forced, or was to repair and found a mismatch once the queue was drained |
| `Audits.AuditRepairs` | src/server/db.ts:2260-2289 | A repairing audit that finds a mismatch, and any forced one, ends exact |
| `Audits.AuditKeepsExact` | src/server/db.ts:2216-2289 | If the queue accounts for every wrong cell, an audit ends exact and, unless forced, rebuilds nothing |
| `Audits.AuditMissesRename` | src/server/db.ts:896-915 | After any renames of models in the events table of any exact store, the audit passes iff no user's fingerprint sum moved, and the rollup is still exact iff the renames left the group-by as it was |
| `Audits.AuditMissesOneRename` | src/server/db.ts:896-915 | For one renamed row among any others the rollup is wrong, and the audit passes iff the two names share their fingerprint |
| `Audits.RenameGoesUnseen` | src/server/db.ts:896-915 | Such names exist: in any exact store with a row of the one, renaming it to the other leaves a wrong rollup that passes the audit |
| `Audits.GroupedByUser` | src/server/db.ts:2184-2186 | Regrouping one user's events gives that user's part of one group-by over all events |
| `Audits.RunIsExact` | src/server/db.ts:2335-2466 | Over any run of inserts, clears, rebuilds and audits from an empty store the rollup is exact and nothing stays queued |
| `EventTables.InsertOrIgnore` | src/server/db.ts:1440-1447 | The conflict check against the unique index, row by row: the row is appended unless some row agrees on all its columns, and changes says which |
| `EventTables.RowsNeverConflict` | src/server/db.ts:358-362 | Over any run of inserts, clears, rebuilds and audits no two rows of the events table agree on (user, source, messageId, requestId or empty, messageType), and the rows are exactly those of the keyed table the rollup laws speak of |
| `Stores.ReconcileSpans` | src/server/db.ts:2340-2354 | The span map holds, per user, the range from oldest to newest cloud Cursor event of the batch, and answers membership exactly |
| `Stores.GroupBy` | src/server/db.ts:1360-1388 | Grouping rows one by one, by the SQL day expression, gives the group-by |
| `Stores.SumTable` | src/server/db.ts:1401-1413 | Summing a table entry by entry gives its total |
| `Stores.Store.Reconcile` | src/server/db.ts:2338-2368 | Deletes exactly the covered local Cursor rows and queues exactly the user-days that lost rows |
| `Stores.Store.InsertRows` | src/server/db.ts:2392-2452 | The insert loop takes each row whose key is new and collects its delta; the count is the growth of the table |
| `Stores.Store.Flush` | src/server/db.ts:2453-2457 | One upsert per delta adds every delta to its cell, in any order |
| `Stores.Store.RepairRollup` | src/server/db.ts:2321-2333 | The drain recomputes exactly the queued user-days from raw events and empties the queue |
| `Stores.Store.InsertMany` | src/server/db.ts:2335-2466 | The whole transaction equals its specification, and the inserted and duplicate counts are those of the insert loop |
| `Stores.Store.ClearAllEvents` | src/server/db.ts:2730-2741 | Empties all three tables and reports the number of rows removed |
| `Stores.Store.ClearUserEvents` | src/server/db.ts:2744-2753 | Removes one user's rows, cells and queue entries, nothing else, and reports the number of rows removed |
| `Stores.Store.RebuildRollup` | src/server/db.ts:2179-2188 | The per-user loop ends with one group-by of all events and an empty queue |
| `Stores.Store.CompareUsers` | src/server/db.ts:2236-2259 | The comparison loop finds exactly the users whose audit rows differ or exist on one side only |
| `Stores.Store.AuditRollup` | src/server/db.ts:2216-2289 | Reports exactly the mismatching users after a drain and rebuilds iff forced or repairing a mismatch |
| `Stores.Store.QueryTotal` | src/server/db.ts:2487-2490 | A rollup-backed read drains first and returns what scanning the raw events of the window returns |
| `PageWalk.MatchingAt` | src/server/cursor-mirror.ts:312-316 | In a list whose times strictly grow, the k-th match of a date-filtered, newest-first request is the k-th newest event |
| `PageWalk.FetchAdvances` | src/server/cursor-mirror.ts:219-238 | Fetching the next page of a walk holds everything newer than its end that the bound covers; the last page leaves nothing of the window out |
| `PageWalk.ArrivalKeepsWalked` | src/server/cursor-mirror.ts:219-238 | Arrivals during a walk push unfetched events further back, never past the walk |
| `CursorMirrors.CursorMirror.TakePage` | src/server/cursor-mirror.ts:225-233 | One page raises the pending maximum to its newest usable event and appends what maps onto token events |
| `CursorMirrors.CursorMirror.RunTick` | src/server/cursor-mirror.ts:198-289 | One polling cycle over the given page outcomes equals its specification: load, walk, insert, advance or note where to resume |
| `CursorMirrors.CursorMirror.FinishTick` | src/server/cursor-mirror.ts:241-282 | A failed insert changes neither watermark nor resume page; a complete walk persists the pending maximum; a truncated one resumes after its last page |
| `CursorMirrors.CursorMirror.ResetWatermark` | src/server/cursor-mirror.ts:294-300 | Forgets the watermark in memory and on disk and starts at page 1 |
| `MirrorSafety.MaxUsableBound` | src/server/cursor-mirror.ts:226-229 | The pending maximum is the newest usable time seen, or what it was before |
| `MirrorSafety.OldestFirstSorts` | src/server/cursor-mirror.ts:241-243 | What a tick inserts is what it fetched, oldest first |
| `MirrorSafety.WatermarkAdvances` | src/server/cursor-mirror.ts:269-275 | When a complete walk moves the watermark, everything up to it is stored and nothing is pending |
| `MirrorSafety.WatermarkIsSafe` | src/server/cursor-mirror.ts:198-310 | Over any interleaving of arrivals, fetches, failures, truncated ticks, restarts, posts and clears, every mappable remote event up to the persisted watermark is stored |
| `MirrorProgress.LoopIsFetches` | src/server/cursor-mirror.ts:219-239 | The page loop of a tick is the same as single fetch steps up to the last page |
| `MirrorProgress.CompleteWalkCatchesUp` | src/server/cursor-mirror.ts:198-282 | A tick from page 1 that reaches the last page moves the watermark up to the newest usable remote event |
| `MirrorWalks.TruncatedTickResumes` | src/server/cursor-mirror.ts:213-281 | After a tick that was served n pages of a walk that is not through, the next tick asks for the page after them over the same window and the watermark stays; if the store failed to take them, for the same pages again |
| `MirrorWalks.CompleteTickStartsOver` | src/server/cursor-mirror.ts:266-274 | After the last page the next tick asks from page 1 on for what is newer than the persisted watermark |
| `MirrorWalks.RestartKeepsWatermark` | src/server/cursor-mirror.ts:307-310 | After a restart the next tick asks from page 1 on for what is newer than the persisted watermark |
| `MirrorWalks.WalkEnds` | src/server/cursor-mirror.ts:213-281 | With all requests served, a walk of so many pages is up to date after exactly as many ticks as the budget needs to cover them; before that the watermark stays and each tick goes on after the pages of the last |
| `MirrorResets.ResetMidTickIff` | src/server/cursor-mirror.ts:291-300 | All events are cleared while a tick is in flight, and it goes on over any arrivals, posts and pages: the invariant of the watermark is restored iff the tick is cut short or loses its insert, brings nothing usable after the reset, or no mappable event older than its window is missing from the store; otherwise the watermark it ends with is unsafe |
| `MirrorResets.SafeFromHere` | src/server/cursor-mirror.ts:198-310 | From any state the invariant holds in, and so after a harmless reset, every further run is safe |
| `MirrorResets.ResetMidTickLosesHistory` | src/server/cursor-mirror.ts:291-300 | Any two events make a reachable run in which clearing everything in mid-tick leaves a watermark that covers a lost event |
| `CloudSyncs.MaxEventTimestamp` | src/daemon/cursor-sync.ts:116-122 | The loop returns the newest timestamp, or 0 |
| `CloudSyncs.FetchFilteredUsageEvents` | src/parser/cursor-api.ts:344-416 | The page loop collects mapped events and stops at the end, the cap or a failure, by the three end rules |
| `CloudSyncs.RunCursorCloudSync` | src/daemon/cursor-sync.ts:248-346 | A failed request or post leaves the saved state as it was and reports nothing posted; success saves the state after the fetched events |
| `CloudSyncs.TruncatedWalkResumes` | src/daemon/cursor-sync.ts:87-109 | A truncated walk keeps its start date, and the daemon's next sync starts exactly one page budget further, whatever the clock |
| `CloudSafety.CloudWatermarkIsSafe` | src/daemon/cursor-sync.ts:87-160 | Over any interleaving of full and incremental syncs, arrivals, failures, partly stored posts, lost saves and restarts: whenever no walk is pending, every mappable event up to lastEventTimestamp has been posted |
| `CloudWalks.FetchesServed` | src/parser/cursor-api.ts:344-416 | A walk that is served throughout yields the events of its pages in order, says whether the last one ended it by one of the three rules, and the page after it |
| `CloudWalks.FailureThrows` | src/parser/cursor-api.ts:344-416 | A request that fails before the walk ended throws the whole walk away |
| `CloudWalks.BeginsExactly` | src/daemon/cursor-sync.ts:87-110 | Where a sync begins: with everything until the full history was walked, then where a truncated walk stopped, else five minutes before the watermark, before the last sync, or a day ago |
| `CloudWalks.SavesExactly` | src/daemon/cursor-sync.ts:124-160 | What a sync saves: its time, that the history was walked, page and window of a truncated walk, and the newest timestamp it met, which a truncated incremental sync leaves out |
| `CloudWalks.WalkEnds` | src/daemon/cursor-sync.ts:87-198 | A walk over a list that stands still is through after exactly as many syncs as the budget needs to cover its pages; before that each goes on after the pages of the last, and then all of the window has been posted |
| `CloudWalks.WatermarkMovesIff` | src/daemon/cursor-sync.ts:131-140 | When an incremental walk is through, its watermark has moved iff the pages of its last sync hold a mappable event that is newer |
| `CloudWalks.LongWalkNeverCatchesUp` | src/daemon/cursor-sync.ts:131-140 | Over a list that stands still an incremental walk that fits one sync has caught up; one that took more has caught up with the pages of its last sync only, and however many walks follow, the watermark never moves again |
| `CloudWalks.BacklogStandsStill` | src/daemon/cursor-sync.ts:131-140 | For every page budget there is a backlog the watermark never passes |
| `CloudStarts.RunSafeIff` | src/daemon/cursor-sync.ts:87-160 | Over any run from a first start, whatever the history held: the watermark's promise holds throughout iff each completed sync, when it is saved, leaves no mappable event unposted that is older than its window and not above the watermark it saves |
| `CloudStarts.EmptySyncMovesWindow` | src/daemon/cursor-sync.ts:102-107 | Each completed sync that fetched nothing moves the window: without a watermark the next one starts at that sync's clock less the overlap |
| `CloudStarts.EmptyWalk` | src/daemon/cursor-sync.ts:124-160 | A first full walk over an empty history saves a state without a watermark, from which syncs go on by the clock of that walk |
| `CloudStarts.EmptyHistoryIff` | src/daemon/cursor-sync.ts:102-107 | Without a watermark, after any run of arrivals and syncs, completed empty, truncated, failing or lost: the sync that completes next saves a watermark with everything below it posted iff it fetched nothing or no mappable event older than its start date is unposted |
| `CloudStarts.EmptyHistoryLosesOne` | src/daemon/cursor-sync.ts:102-107 | An empty walk and an empty sync after it: any two events on either side of that sync's clock less the overlap make a reachable run in which the older is lost under the watermark |
| `ReadSlices.ReadNewlineLines` | src/parser/read-slice.ts:61-120 | For any bytes, offset and window size the windowed reader yields what plain splitting yields, ends at the byte after the last newline, and rejects a window size that is not positive |
| `ReadSlices.ReadRecords` | src/parser/read-slice.ts:100-117 | Inside a window the reader closes a discarded record as one oversize drop, skips blank ones and yields the rest |
| `ReadSlices.RecordsAreExactly` | src/parser/read-slice.ts:36-47 | Exactly the terminated, non-blank records are reported: as a line when they have at most maxBytes bytes, as an oversize drop when longer |
| `ReadSlices.RecordsInOrder` | src/parser/read-slice.ts:49-60 | They are reported in file order |
| `ReadSlices.CommittedIsLast` | src/parser/read-slice.ts:49-60 | The committed offset is the byte after the last newline, so an unterminated tail is re-read |
| `ReadSlices.ReadsCompose` | src/parser/read-slice.ts:75-118 | A read of a prefix followed by a read of the grown file from the committed offset reports what one read of the grown file reports, even when cut inside an oversized record |
| `Transcripts.TakeLine` | src/parser/cursor-jsonl.ts:105-147 | A line moves the line index before it is decoded, and the in-file duplicate check never fires |
| `Transcripts.ParseCursorTranscriptFile` | src/parser/cursor-jsonl.ts:78-156 | One transcript read equals its specification |
| `TranscriptLines.EventsAreLines` | src/parser/cursor-jsonl.ts:97-147 | A read reports exactly the prompts and non-empty answers among its lines, each under its line number, four characters to a token rounded up, and counts its lines and its drops |
| `TranscriptLines.IdsRise` | src/parser/cursor-jsonl.ts:105-147 | Events come in the order of their lines, so no two have one id |
| `Transcripts.TranscriptReadsCompose` | src/parser/cursor-jsonl.ts:97-154 | Where a growing transcript is cut changes no event, message id, offset, line index or drop count |
| `Transcripts.ReadsAreOneRead` | src/parser/cursor-jsonl.ts:97-154 | However often and wherever a growing transcript is read, the reads together say what one read of its last version says |
| `Transcripts.RescanKeepsIdsIff` | src/daemon/tick.ts:327-339 | A transcript read from its start with a saved line index gives its events the ids they had iff that index is 0 or there are none |
| `Transcripts.RescanRepeats` | src/daemon/state.ts:93-104 | However far the file has grown by then, no event a rescan reports has an id the reads before it used |
| `CodexParsers.LookAhead` | src/parser/codex.ts:196-224 | The look-ahead returns the model of the first turn_context in the first 32 MiB, None if it names none or there is none; its offset check cannot fire |
| `CodexParsers.BillUsage` | src/parser/codex.ts:483-520 | What a record bills, with the reset rules spelled out bucket by bucket |
| `CodexParsers.TakeTokenCount` | src/parser/codex.ts:436-597 | One token count: replay skip, billing, ledger, suppression, model and event |
| `CodexParsers.TakeLine` | src/parser/codex.ts:371-597 | One decoded line of any kind |
| `CodexParsers.ParseCodexFile` | src/parser/codex.ts:283-599 | One read of a rollout equals the fold of its lines, with the look-ahead evaluated lazily and at most once |
| `CodexSplits.PeekSettles` | src/parser/codex.ts:165-224 | Once the look-ahead found a turn_context or filled its cap, growth of the file does not change its answer |
| `CodexSplits.PeekIsMet` | src/parser/codex.ts:196-224 | A model the look-ahead finds is one the main pass meets too |
| `CodexPasses.NumberedJoint` | src/parser/codex.ts:345-346 | Two reads number their events like one iff no timestamp is shared by the last event of the first and the first of the second |
| `CodexPasses.SameEventsIff` | src/parser/codex.ts:345-346 | Timestamps and order determine the numbers: two numbered lists of the same events can differ in models only |
| `CodexPasses.PassesAlike` | src/parser/codex.ts:362-597 | A single pass and the second of two stay level in billing, replays and labels until one meets a replay the other bills or needs a model the other has not |
| `CodexPasses.UnmovedTotalDisagrees` | src/parser/codex.ts:449-475 | If the first cumulative after the cut equals what the first read carried over without having seen one, the passes count replays differently forever after |
| `CodexCuts.AsksIff` | src/parser/codex.ts:318-324 | The look-ahead runs iff the first event of the file precedes every named model |
| `CodexCuts.SplitReadsAgreeIff` | src/parser/codex.ts:287-358 | An unforked rollout read in two passes gives the events, ids, models, ledger, offset and counts of one pass iff a cumulative was carried or seen before the cut or the first later one moves, the events on either side of the cut carry different timestamps, and the model looked up ahead for an unnamed first event does not depend on how far the file had grown |
| `CodexCuts.SettledReadsAgreeIff` | src/parser/codex.ts:287-358 | After a cumulative, and with a turn_context in reach of the look-ahead, only a timestamp shared across the cut tears the reads apart |
| `CodexRereads.ReadsAreOneReadIff` | src/parser/codex.ts:287-358 | However often a growing unforked rollout is read: after each read the reads so far say what one read of the file says iff every cut was harmless |
| `CodexRereads.CumulativeIsNeeded` | src/parser/codex.ts:354-358 | A file without a cumulative when it is first read: the second read takes its first one for a replay and drops a billed record |
| `CodexRereads.SharedStampCollides` | src/parser/codex.ts:345-346 | Two prompts with one timestamp get two ids in one read and the same id when the cut falls between them |
| `CodexRereads.LookAheadIsNeeded` | src/parser/codex.ts:318-324 | A prompt read before its turn_context was written is labelled with the fallback, a later single read labels it with the turn's model |
| `CodexTotals.ReplaysChangeNothing` | src/parser/codex.ts:449-475 | Replays at the start of a later read, or wherever a cumulative stands, change neither events nor ledger nor model, then or later |
| `CodexTotals.ReplaysAreIgnored` | src/parser/codex.ts:449-475 | Inserting any number of replays right after a cumulative-bearing record changes neither the events nor the final ledger |
| `CodexTotals.StepConserves` | src/parser/codex.ts:449-597 | A token count is a replay, which is only counted, or bills its own usage or, bucket by bucket, the growth of its cumulative, in full after a fall; it emits one event unless that is nothing or a fork's copy: cached tokens up to the input, written ones up to the rest, the remainder plain, under its own, the known, the looked-up or the fallback model |
| `CodexTotals.OtherStepsExactly` | src/parser/codex.ts:371-435 | Every other line: a forked session read from the start arms the copy, a turn names a model, a prompt that was not copied is one event without tokens, numbered among those of its timestamp; nothing else emits, bills or is remembered |
| `CodexTotals.EmittedSumsTelescope` | src/parser/codex.ts:499-536 | Over a total-only unforked stream the emitted input, output and reasoning are the growth of the last segment plus what each earlier segment had reached when a reset closed it |
| `CodexTotals.MonotoneSumsTelescope` | src/parser/codex.ts:499-536 | Without resets the emitted sums are the final cumulative minus the initial one |
| `CodexTotals.CacheTelescopes` | src/parser/codex.ts:499-587 | Over cumulatives that never fall and whose cached and written portions are part of each step's input, what the events read from the cache and wrote to it is the final cumulative minus the initial one |
| `Transports.Ingest` | src/server/main.ts:1594-1636 | An empty request is accepted and changes nothing; otherwise invalid rows are skipped and the valid ones inserted, and the request is refused iff it is too large, holds no valid row, or its valid rows are of more than one user |
| `Transports.IngestKeepsExact` | src/server/main.ts:104-154 | Whatever a daemon posts, the rollup stays exact: validation keeps NULs out of the delta keys |
| `Transports.Chunk` | src/daemon/transport.ts:109-116 | Slices of the given size, in order, with nothing lost; a size of 0 or less gives one slice |
| `Transports.PostBatch` | src/daemon/transport.ts:158-275 | The retry loop succeeds iff some attempt is answered before a refusal or the last attempt, and may have stored the batch several times over |
| `Transports.PostEvents` | src/daemon/transport.ts:404-440 | Batches go out in order and the first failure fails the post |
| `Transports.PostDelivers` | src/daemon/transport.ts:398-440 | A post reported as successful has stored every valid event, and no post loses a stored key, however many answers were lost; local Cursor rows aside |
| `Transports.LostAnswerIsHarmless` | src/daemon/transport.ts:398-403 | Sending a batch again because its answer was lost changes nothing |
| `Deliveries.AdmitsIff` | src/server/main.ts:1594-1636 | A request is accepted iff it is empty, or of at most a thousand events, some of them sound and all sound ones of one user |
| `Deliveries.IngestTakesExactly` | src/server/main.ts:104-165 | Of an accepted request every sound event's key is stored, a row that is new holds the columns of a sound event of it, and any other request changes nothing; sound means a plain handle, ids, no negative count, a model for an answer and a cost of at most a hundred dollars |
| `Deliveries.BatchIsSentOnce` | src/daemon/transport.ts:158-275 | However often a batch is sent, it is inserted once if any attempt arrives before a refusal, and the sender learns of it iff one is answered |
| `Deliveries.PostGoesInOrder` | src/daemon/transport.ts:398-440 | A post stops at the first batch that is not answered and succeeds iff there is none; the store then holds what inserting the batches that arrived, once each and in order, makes of it |
| `Ticks.CollectDeduped` | src/daemon/tick.ts:93-106 | What a tick collects is the first event of each messageId:requestId, in order |
| `Ticks.ScanFiles` | src/daemon/tick.ts:247-379 | The file loop parses exactly the eligible files from their saved offsets and changes no saved state |
| `Ticks.PruneMissingFiles` | src/daemon/state.ts:152-161 | Keeps exactly the states of present paths |
| `Ticks.Tick` | src/daemon/tick.ts:119-462 | Nothing is saved unless the post went through; then the updates are merged, missing files pruned, and a failed save moves memory only |
| `Ticks.TickReads` | src/daemon/tick.ts:255-383 | What a tick offers is, in listing order, all events of each handled file that is not skipped, is there, parses and is new or touched since its last read; after a post the memory knows of each listed file the mtime, offset and memo of its last read, or what it knew before, and of no other file |
| `IngestReach.TouchedFilesAreRead` | src/daemon/tick.ts:255-478 | Over any run with whatever failures before: after a tick that posted, the saved offset of each handled file that was new or touched is the byte after its last newline, and reads that follow one another have handed every terminated record of it to its parser |
| `IngestSafety.FirstOnlyIsFirst` | src/daemon/tick.ts:93-106 | An event is posted iff it is the first of its key in the tick |
| `IngestSafety.PostedIffFirstValid` | src/daemon/tick.ts:93-106 | A key reaches the server as a valid event iff the first event of that key in the tick is valid |
| `IngestSafety.ValidBehindInvalid` | src/daemon/tick.ts:93-106 | An event that fails validation hides a valid one of the same key behind it in the tick |
| `IngestSafety.NoLoss` | src/daemon/tick.ts:255-478 | Over any run of appends, ticks, failing batches, lost answers, failed saves, vanished listings, restarts and rescans: each offset in memory or on disk is reached by recorded reads that follow one another from the start of the file, each started from the line index, totals and model the one before left (the first from none unless a rescan came before), and handed each terminated record below it to the parser exactly once, in order; each read's events are what the parser makes of those bytes; and each of them whose key its tick posted as a valid event is stored under its full dedup key |
| `IngestTranscripts.TranscriptsAreOneRead` | src/daemon/tick.ts:321-339 | Over any such run without a rescan, the recorded reads of a Cursor transcript, followed by reading on from its saved offset and line index, give the events and message ids of one read of the whole file |
| `IngestSafety.NothingStoredTwice` | src/server/db.ts:358-362 | However often batches are sent again, the events table is what a run of insertMany calls makes of its rows, and no two of them agree on the columns of the unique index |
| `Directives.DirectiveStore.Enqueue` | src/server/db.ts:3041-3055 | Appends a pending row and returns its id |
| `Directives.DirectiveStore.Take` | src/server/db.ts:3068-3090 | Re-queues what lapsed, then claims the oldest eligible row, or none |
| `Directives.DirectiveStore.Ack` | src/server/db.ts:3097-3116 | The first ack completes the row; a replay changes nothing and says so; a foreign id is unknown |
| `Directives.HandedOutRightly` | src/server/db.ts:1809-1848 | Over any run each directive is handed out at most twice, the second time at least a TTL after the first, each time inside its window, never to another user or device, and a watchdog-only verb never to a daemon channel |
| `Directives.FirstAckIsFinal` | src/server/db.ts:1841-1848 | Once acknowledged, a directive is never handed out again and no column of it ever changes |
| `Directives.PendingIffObtainable` | src/server/db.ts:724-732 | A directive shows as pending iff some executor could be handed it now, and an expired one is out of reach of every executor from then on |
| `Directives.TakesExactly` | src/server/db.ts:3068-3090 | A take hands out the first row of the user that is unanswered, waiting within a day of its creation or re-queueing or out for a day, for this device or any, and not a sample or state upload unless the watchdog asks; it takes back the user's overdue rows and changes nothing else |
| `Directives.AcksExactly` | src/server/db.ts:3097-3116 | The first answer to one of the user's own rows fills its answer columns; any other changes nothing and says which it was |
| `Directives.SecondChance` | src/server/db.ts:1830-1848 | Whatever happens after a handout: while the directive is neither answered nor handed out again, an executor it is for may be handed it from a day after the handout on, until a day after it was taken back, if it was |
| `Watchdogs.Watchdog.AccountRespawn` | src/daemon/watchdog.ts:343-363 | A new heartbeat author or label pid counts as a respawn unless the journal explains it; old ones fall out of the window |
| `Watchdogs.Watchdog.ObserveHeartbeat` | src/daemon/watchdog.ts:365-395 | The staleness counter: corrupt state counts one observation, a missing heartbeat resets it, a new one clears the SIGTERM memory |
| `Watchdogs.Watchdog.TurnFuse` | src/daemon/watchdog.ts:397-419 | Unlatches after 30 minutes of fresh heartbeats and latches on three unexplained respawns |
| `Watchdogs.Watchdog.ClimbLadder` | src/daemon/watchdog.ts:421-457 | SIGTERM first, SIGKILL on the next stale firing, only against the heartbeat's author while launchd agrees and the fuse is whole |
| `Watchdogs.Watchdog.RunWatchdog` | src/daemon/watchdog.ts:339-457 | One firing equals its specification |
| `Watchdogs.SignalsAreJustified` | src/daemon/watchdog.ts:339-457 | Over any run of firings, state kept, corrupt or missing: a signal goes to the pid launchd and the heartbeat agree on, after at least 8 consecutive firings with that heartbeat, and SIGKILL follows a SIGTERM to the same pid with no other or missing heartbeat and no other SIGKILL in between |
| `Watchdogs.DegradedNeverKills` | src/daemon/watchdog.ts:407-434 | Nothing is signalled while the fuse is blown, nor by the firing that blows or unlatches it |
| `WatchdogDeadlines.SignalsExactly` | src/daemon/watchdog.ts:365-457 | While a heartbeat stands still its author is signalled exactly when the firings since cover three tick intervals and number eight, or cover 45 minutes while an update marker is younger than an hour, if launchd runs that pid and the fuse is whole: with SIGKILL if the last signal was a SIGTERM, else with SIGTERM |
| `WatchdogDeadlines.FirstTermThenKill` | src/daemon/watchdog.ts:421-457 | The first such firing sends SIGTERM and the next one SIGKILL |
| `WatchdogDeadlines.FuseBlowsAtThird` | src/daemon/watchdog.ts:343-419 | Over any run that keeps the state file, a whole fuse blows at the firing at which three unexplained respawns of the last 90 minutes stand, by heartbeat pid or launchd pid, with no healthy new heartbeat since |
| `WatchdogDeadlines.MendsIff` | src/daemon/watchdog.ts:397-407 | A blown fuse is mended exactly by a firing that sees a new heartbeat, or none, at least 30 minutes after the first heartbeat or the last that ended a due silence, however short it has been blown |
| `WatchdogDeadlines.MendsAtOnce` | src/daemon/watchdog.ts:397-407 | A daemon that runs for half an hour and then crashes in a loop blows the fuse at the third respawn and mends it at the fourth |
| `Devices.DedupedLabel` | src/server/db.ts:2901-2909 | The unbounded search ends and returns the label itself if free, else the first free numbered one |
| `Devices.DeviceStore.ClaimUserSecret` | src/server/db.ts:2838-2854 | Only the first claim of a handle succeeds, and it registers the device in the same step |
| `Devices.DeviceStore.ReclaimUserSecret` | src/server/db.ts:2861-2877 | Rotates the secret, clears the mark, revokes every old device and registers the new one |
| `Devices.DeviceStore.RevokeUserDevice` | src/server/db.ts:2956-2990 | Revokes an active device; the last one marks the handle uninstalled, otherwise the mirrored secret moves to the oldest survivor |
| `Devices.DeviceStore.AdminMarkUninstalled` | src/server/db.ts:3368-3376 | Revokes every device of a known handle and marks it |
| `Devices.DeviceStore.MarkUserUninstalled` | src/server/db.ts:3392-3402 | Revokes the active device whose secret is presented, nothing otherwise |
| `Devices.DeviceStore.RecordDeviceCheckIn` | src/server/db.ts:3019-3037 | Stamps the row; adopts a deduplicated label only for an active device that has none |
| `Devices.OldestActive` | src/server/db.ts:1759-1763 | The survivor chosen is an active device of the user that was added no later than any other |
| `DeviceSafety.HandlesStayConsistent` | src/server/db.ts:2838-3037 | Over any run of claims, re-claims, links, revokes, uninstalls and check-ins: a claimed handle has no active device iff it is marked uninstalled, the mirrored secret of one that is not belongs to an active device, and active labels are pairwise distinct |
| `DeviceChanges.RowsChange` | src/server/db.ts:2838-3037 | What each operation makes of each device row: which one it registers, which it ends, what a check-in stamps, and that nothing else changes |
| `DeviceChanges.HandlesChange` | src/server/db.ts:2838-2990 | What it makes of the handle: a new secret on re-claim, the mark when no device is left, and the mirrored secret moved to the device added first among those left exactly when its own device ends |
| `DeviceChanges.DevicesLiveOnce` | src/server/db.ts:2838-3037 | Over any run a device keeps its handle, secret and time of addition, and is in use until the first operation that ends it, whose time its row keeps for good |
| `FleetSweeps.CountUnexplainedResets` | src/server/fleet.ts:255-273 | Counts exactly the check-ins whose uptime fell below the last one reported, booted inside the window and matched by no journal entry |
| `FleetSweeps.FleetStore.ObserveDeviceFleetState` | src/server/db.ts:3313-3327 | A repeated state keeps its start, a changed one restarts the clock |
| `FleetSweeps.FleetStore.ObserveDeviceFlag` | src/server/db.ts:3336-3359 | A present flag keeps its start, an absent one drops it |
| `FleetSweeps.FleetStore.QueueHeal` | src/server/db.ts:3118-3134 | Queues a device-targeted directive iff needed and none of the kind is live or recent |
| `FleetSweeps.FleetStore.Page` | src/server/fleet.ts:485-528 | A page is recorded only when delivered and suppressed inside its window |
| `FleetSweeps.FleetStore.SweepFleetAlerts` | src/server/fleet.ts:450-624 | A sweep visits the devices in order, reports one decision per flag and alertable state, and does nothing while suppressed |
| `FleetRuns.AlertsAreSpaced` | src/server/fleet.ts:450-624 | Over any run of sweeps, deliveries, re-queues and acks, two automatic restarts of one device, and two pages for one device and state, are at least ALERT_DEDUP_MS apart |
| `FleetRuns.PagesMeanAnHour` | src/server/fleet.ts:580-621 | A page for a state, and a restart, mean that every sweep that observed the device for the last hour or more found it in that state; a restarted device has a reporting watchdog and missed three of its ticks, a dark one has been silent on every channel it has |
| `FleetVerdicts.CrashesCounted` | src/server/fleet.ts:255-273 | The count is the number of check-ins that reveal a restart of the last 90 minutes by an uptime below the last one reported, with no journal entry within ten minutes of it |
| `FleetVerdicts.ClassifiedExactly` | src/server/fleet.ts:276-335 | Each state's exact condition: wedged iff silent with a watchdog heard, and frozen or still for over half an hour and a quarter of an hour more than three ticks; dark iff silent for over an hour on both channels, or a day on the only one where a watchdog could be; and so on for all eight |
| `FleetHistory.VisitsDoWhatIsDue` | src/server/fleet.ts:450-624 | Over any run, a visit pages exactly when the webhook works and the missing watchdog, or the alarming state, has been observed for an hour without a break and was not paged in the last six, and queues a restart exactly for an hour of wedged observations, a reinstall exactly for a heard daemon without its watchdog, each only if no directive of the kind is in the way |

## Left out

- `count()` and `cachedCount` are not modelled: reconcile deletes do not reduce the cached count (`src/server/db.ts:2354-2366` against `src/server/db.ts:2464`), so no law about it would hold.
- Row ids, `ingestedAt`, prepared statements, indexes, pragmas and migrations are not modelled; each transaction is one step. The rebuild's retry with in-memory temp storage runs the same loop twice and is modelled once.
- Costs in dollars and other floats are not modelled; token and micro-dollar sums are integers. `Math.floor` and `Math.ceil` of a millisecond quotient are taken as exact integer division, which they are for safe integers.
- Sorting of the audit's mismatched users, the ok/rebuilt timings and log lines are not modelled; the set of mismatched users is.
- SQLite's `length()` stops at a NUL; model names in the audit fingerprint are taken to hold none.
- Message ids are structured values instead of hashes or concatenated text: distinct inputs give distinct ids.
- The field mapping of Cursor events (email map, cost and count clamps, model names) is an input: a remote event carries what the mapping makes of it. Remote times are integers, and the remote list is strictly newest-first.
- Clearing one user's events leaves the mirror's watermark alone (`src/server/main.ts:2489-2493`); the watermark's promise is stated for users that are never cleared one by one.
- A mirror tick's watermark is a number or absent; stored text that is no number reads as absent.
- Month-mode cloud syncs, token refresh and the CLI's output are not modelled.
- The Claude Code parser's lines are not modelled: it marks a zero-usage line's key as seen, so its events depend on where reads are cut (`src/parser/claude-code.ts:157-171`). `IngestSafety.NoLoss` takes the parser of each path as a function of the bytes, the offset and the memo; `IngestTranscripts` puts the transcript parser in its place.
- Codex reads through whole runs of the daemon are not composed: `CodexRereads.ReadsAreOneReadIff` covers any number of reads of a file, and their totals and model go through `IngestSafety.NoLoss` as memos.
- The local Cursor database source and its row watermark (`src/daemon/tick.ts:381-404`) are not modelled; local Cursor rows are outside the no-loss statement because later cloud rows replace them.
- UTF-8 decoding and JSON decoding are inputs: a byte 0x0A never lies inside a multi-byte sequence (section 3 of RFC 3629).
- The look-ahead's text prefilter for turn_context lines is not modelled; it only saves decoding.
- Fork seeds in Codex rollouts are part of the parser but of no law: how long a seed lasts rests on wall-clock gaps. The laws assume unforked files.
- A Codex line without a timestamp takes the wall clock's; the model takes that text as the line's own.
- Transcript events carry the file's mtime at the time of the read; the model leaves that field out.
- Aborts in the middle of a post count as an unanswered attempt; heartbeats and directives on post responses are not modelled.
- HTTP authentication order in the ingest route is not modelled; `Devices` states caller obligations: only claimed handles are re-claimed or linked, and only handles that are not uninstalled are linked.
- Secret hashes are compared as text; hex decoding and timing-safe comparison are not modelled.
- The watchdog's forensics, artifact healing, rollback and network check-in are not modelled, nor the case that its state file cannot be written. All reads of the clock within one firing agree.
- The counters the watchdog only reports (`noPidRuns`, `kills`) are modelled, but no law is stated about them.
- A fresh update marker replaces the staleness threshold instead of raising it, so for tick intervals above 920 s it lowers it; `WatchdogDeadlines.SignalsExactly` states the deadlines as the code has them.
- Two sweeps that overlap because a webhook hangs could both page before either records it; the sweep timer has no guard, and the model's sweeps do not overlap. Automatic restarts are checked and queued in one step.
- Check-in body sanitizing and version parsing are inputs; the text of a page and of a log line is not modelled.
- Rendering, routing, installer scripts, pricing, configuration parsing, branding and page-view counting hold only easy members.
