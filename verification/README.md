# Verified models of the Fortress Prime batch protocols

The repository is a collection of nightly jobs, miners and edge workers around databases
and remote models. This project models the parts that have to survive crashes, retries and
partial failure, and proves what every run of them keeps. `dafny verify dfyconfig.toml`
checks all of it.

Every model has the same shape. A program that changes state is a class whose fields are
that state; each method is proved equal to a specification function on values. What the
outside world does (a commit that fails, a lost acknowledgement, a process that dies, a model's
answer, a clock) is a parameter of the method, so a statement about all parameters is a
statement about all behaviours. The main results are lemmas about the specification
functions, over every history of runs.

| file | system part | main results |
|---|---|---|
| `Reindex.dfy`, `ReindexHistory.dfy` | crash-resumable copy of a vector collection | what is stored over all histories, in terms of the texts, with exact counters; exact image once any run completes; exact conditions for recovery and for the dry-run trap |
| `EmailQueue.dfy`, `MiningRig.dfy` | transactional mail miner | exactly-once rows, each what its answer says; reported counts = committed + rolled-back rows; when the drain loop is done |
| `Router.dfy` | routing miner with a second session | at-least-once with an exact, attained bound; the largest amount in the table of the route |
| `GmailWatcher.dfy` | inbox label state machine | when a draft or a call for help is made, and the draft and label law over all polling histories; conservation of the statistics |
| `RateLimiter.dfy` | fixed-window limiter of the gateway | stored bucket refines counting over the whole history; sharp interval bound; eviction is unobservable |
| `Groundskeeper.dfy`, `KeeperHistory.dfy` | turnover-to-task generator under autocommit | tasks and deadlines from file and properties; tasks are a prefix of the plan wherever a run dies; exact recovery condition; idempotence |
| `Notes.dfy`, `Janitor.dfy` | self-healing classification janitor | note round trip through SQL; the flags of every class; convergence over any number of nights |
| `GpuHandover.dfy` | GPU hand-over of the nightly fine-tune | which nights train, push and raise; exactly when training begins beside pods; one restart per stop; meaning of exit code 0 |
| `BudgetLoop.dfy` | budgeted labelling | sharp bounds on what a run and a day charge and record; when the two agree |
| `TopicClassifier.dfy`, `ContextSlicer.dfy` | prompt slicing | stable ranking; what a slice holds, its exact length and size bound |
| `Escaping.dfy` | escaping in the storefront worker | five passes equal one injective map; script-safe JSON reads the same |
| `Common.dfy` | shared vocabulary | |

## Where code and documentation disagree

The models follow the code.

- The reindex tool's `--dry-run` skips embedding and storing but still saves the advanced cursor
  (src/reindex_legal_qdrant_to_legal_embed.py:273-297). A later copying run then misses the
  points before it: `ReindexHistory.DryRunLosesPoint` is a concrete case,
  `ReindexHistory.DryRunThenCopy` and `ReindexHistory.CompletedExactIff` say exactly when the result is
  still right.
- The miner accepts `DIVIDEND` (src/mining_rig.py:331) but the table's check refuses it
  (src/init_gold_db.py:102): the mail is marked mined and no row remains (`MiningHistory.DividendVanishes`).
- The routing miner's `no_route` counter never moves; mail without a route carries an error text and is
  counted as an error (`Router.CountersExact`).
- The watcher's "Processed label — prevents double-processing" depends on a write whose failure is ignored
  (src/gmail_watcher.py:738); the number of extra drafts is exactly the number of such failures
  (`WatcherHistory.DraftLabelLaw`).
- The gateway's section title promises a token bucket (gateway/cloudflare_worker.js:181); the code is a fixed
  window, and TITAN and ordinary requests share one counter (`RateLimiter.TitanStarved`).
- The task generator calls its duplicate check idempotent (src/groundskeeper.py:267). It is after a run that
  finished, but a run that dies between a turnover's first task and its status update freezes the turnover for ever
  (`KeeperHistory.CrashRecovery`).
- The janitor's `FLAG_THRESHOLD` of 0.70 (tools/classification_janitor.py:70) is never read: everything below
  0.95 is flagged.
- The reindex tool calls its resume idempotent (src/reindex_legal_qdrant_to_legal_embed.py:242-244), but the checkpoint
  file is overwritten in place (:97-100): after a death inside that write every run refuses until `--reset-state`
  (`ReindexHistory.RecoveryIff`, `ReindexHistory.ResetRecovers`).
- The fine-tune job logs the pod as "fully terminated" (src/nightly_finetune.py:212) after any listing with empty output.
  A kubectl that exits non-zero raises nothing and prints nothing, so training can begin beside live pods:
  `GpuHandover.TrainingIsSafe` says exactly when, `GpuHandover.BlindNights` and the last two clauses of
  `GpuHandover.Handover.RunNight` show both cases.
- The fine-tune job says it always attempts the restart (src/nightly_finetune.py:824), but a stop that times out
  after the scale-down returns before that block and leaves the deployment at zero replicas
  (`GpuHandover.ReplicasLeft`).
- The labelling budget is daily (fortress-guest-platform/backend/services/labeling_pipeline.py:128-140). The cost column
  keeps four decimals (fortress-guest-platform/backend/alembic/versions/c255801e28a0_add_labeling_tables.py:39), so
  DeepSeek answers are recorded at 80/71 of their charge and Gemini answers at 64/65: a day can record more than the budget
  (`BudgetLoop.TwentyDollars`) and charge more although every label is stored (`BudgetLoop.ChargeBoundReached`). A
  label insert that fails is swallowed and its cost forgotten, so then a day can charge any multiple of the budget
  (`BudgetLoop.LostLabelsCharge`).

## Model

| member | source | states |
|---|---|---|
| Reindex.EmbedBatch | src/reindex_legal_qdrant_to_legal_embed.py:117-145 | at most three posts, every one before the last transient; a rejected request (400) is never retried; gives up exactly after three transient replies |
| Reindex.Reindexer.ProcessBatch | src/reindex_legal_qdrant_to_legal_embed.py:159-200 | the target becomes the old one overlaid with the images of exactly the batch's eligible ids; kept + skipped = batch size |
| Reindex.Reindexer.ScrollPage | src/reindex_legal_qdrant_to_legal_embed.py:255-263 | a page is the slice from the cursor's index, its cursor the id of the first point not returned, and it is empty exactly at the end |
| Reindex.Reindexer.CollectWindow | src/reindex_legal_qdrant_to_legal_embed.py:252-268 | the scroll loop collects exactly the pages of one window and the cursor behind them |
| Reindex.WindowTiles | src/reindex_legal_qdrant_to_legal_embed.py:245-271 | a window's batches are non-empty, within the batch size, concatenate to the slice up to the window's end, and are none only at the end of the source |
| Reindex.PageEndClosed | src/reindex_legal_qdrant_to_legal_embed.py:254-268 | a window ends exactly inflight × batch-size points on, or at the end of the source |
| Reindex.WindowExtent | src/reindex_legal_qdrant_to_legal_embed.py:245-254 | with `--inflight` below one a window is one batch |
| Reindex.WindowEndAdvances | src/reindex_legal_qdrant_to_legal_embed.py:249-271 | the cursor strictly advances, so the run ends |
| Reindex.PosOfCursor | src/reindex_legal_qdrant_to_legal_embed.py:265-266 | resuming from a saved cursor starts at the very point it was taken at |
| Reindex.Reindexer.GatherWindow | src/reindex_legal_qdrant_to_legal_embed.py:276-282 | whatever order the concurrent batches finish in, the target is the overlay of the whole window and the totals are the sums |
| Reindex.OverlayCompose | src/reindex_legal_qdrant_to_legal_embed.py:186-191 | id-preserving upserts commute and are idempotent: only the set of written ids matters |
| Reindex.Reindexer.DoWindow | src/reindex_legal_qdrant_to_legal_embed.py:273-297 | a finished window moves the durable state to `FinishWindow`: overlay, counters and cursor, or only the cursor on a dry run |
| Reindex.Reindexer.DieInWindow | src/reindex_legal_qdrant_to_legal_embed.py:240-245 | a death inside a window leaves any subset of its upserts and the old checkpoint |
| Reindex.Reindexer.RunReindex | src/reindex_legal_qdrant_to_legal_embed.py:203-311 | one invocation is the specified run on the durable state, however it ends: completed, halted, dead in a window, dead in the save, or refused for an unreadable checkpoint or a wrong target |
| ReindexHistory.HistorySafe | src/reindex_legal_qdrant_to_legal_embed.py:240-297 | after every history of crashing, halting, completing or reset copying runs: eligible points before the saved cursor are stored, nothing foreign is added, and processed = k·eligible + eligible(prefix), processed + errors = k·N + prefix |
| ReindexHistory.StoredBeforeCursor | src/reindex_legal_qdrant_to_legal_embed.py:166-189 | after every copying history a point before the saved cursor whose field is a string with a character other than white space is stored with the embedding of that string and its own payload, whatever the target held |
| ReindexHistory.StoredOnceCompleted | src/reindex_legal_qdrant_to_legal_embed.py:166-301 | once any run has completed, every such point of the source is |
| ReindexHistory.StoredOnlyFromTexts | src/reindex_legal_qdrant_to_legal_embed.py:166-189 | after any history at all, dry runs and rewritten cursors included, what the target holds it held at the start, or it is the embedding and payload of such a point |
| ReindexHistory.CountersAreTexts | src/reindex_legal_qdrant_to_legal_embed.py:166-185 | the saved counters in numbers of such points: processed counts them over the finished passes and the prefix, errors the rest |
| ReindexHistory.CompletedMeansExact | src/reindex_legal_qdrant_to_legal_embed.py:240-301 | once any run of the history completed, the target is the image of the eligible source points and nothing else, for ever after |
| ReindexHistory.TornIff | src/reindex_legal_qdrant_to_legal_embed.py:81-100 | the checkpoint file is unreadable exactly if some event of the history died in the save and no reset followed |
| ReindexHistory.RecoveryIff | src/reindex_legal_qdrant_to_legal_embed.py:86-100 | after any history an uninterrupted copying run completes, with the exact image, if and only if no death in a save waits for a reset; otherwise it refuses and changes nothing |
| ReindexHistory.ResetRecovers | src/reindex_legal_qdrant_to_legal_embed.py:370-374 | after a reset the next uninterrupted run always leaves the exact image |
| ReindexHistory.UninterruptedCompletes | src/reindex_legal_qdrant_to_legal_embed.py:249-301 | a run neither killed nor halted completes |
| ReindexHistory.CoveredIsImage | src/reindex_legal_qdrant_to_legal_embed.py:186-191 | full coverage without foreign ids is the same as equality with the image |
| ReindexHistory.RunWritesSuffix | src/reindex_legal_qdrant_to_legal_embed.py:248-301 | a copying run touches nothing before its start and, when it completes, has written everything behind it |
| ReindexHistory.CompletedExactIff | src/reindex_legal_qdrant_to_legal_embed.py:248-301 | from any state: a completed copy is exact if and only if the points before the cursor it resumed from were already stored |
| ReindexHistory.DryRunMovesCursor | src/reindex_legal_qdrant_to_legal_embed.py:273-297 | a dry run stores and counts nothing but moves the cursor forward |
| ReindexHistory.ResumeThenCopy | src/reindex_legal_qdrant_to_legal_embed.py:376-381 | after `--resume-from` a completed copy is exact if and only if the points before the given id were already stored |
| ReindexHistory.DryRunThenCopy | src/reindex_legal_qdrant_to_legal_embed.py:273-297 | after a halted dry run a completed copy is exact if and only if the dry run passed no eligible point |
| ReindexHistory.DryRunLosesPoint | src/reindex_legal_qdrant_to_legal_embed.py:273-305 | a two-point source on which it is not |
| EmailQueue.BatchShrinksQueue | src/mining_rig.py:273-281 | a batch whose messages are all marked shrinks the queue by min(limit, queue) |
| EmailQueue.OldestFetched | src/mining_rig.py:273-281 | a waiting message is in the next batch if fewer than the limit of the others are not newer; one without a date counts as the newest |
| MiningRig.Miner.MarkAsMined | src/mining_rig.py:62-80 | the mark commits the open transaction with it, or rolls everything back |
| MiningRig.Miner.InsertRow | src/mining_rig.py:341-358 | the row is pending exactly if the schema accepts it and nothing raised; it is counted before its message can fail; a rollback that raises escapes |
| MiningRig.Miner.WorkOn | src/mining_rig.py:304-408 | the branches of one message up to the mark: what is pending and which counters moved, with the error of a failed rollback |
| MiningRig.Miner.Attempt | src/mining_rig.py:298-419 | one message changes the committed tables by row and mark together or not at all |
| MiningRig.Miner.ProcessEmails | src/mining_rig.py:259-434 | a batch, killed or interrupted anywhere, is the specified fold over its messages; the summary is printed only if it ran through |
| MiningHistory.AfterBatchOnce | src/mining_rig.py:298-418 | a batch of unmined messages keeps exactly-once |
| MiningHistory.EmailStores | src/mining_rig.py:304-394 | a message adds a row if and only if it passed the filter, its insert and mark succeed, and the row is what the answer says: a BUY or SELL trade with a ticker, its action and price below a million, or an invoice with a vendor, its amount below a hundred million |
| MiningHistory.RowsComeFrom | src/mining_rig.py:259-418 | over every history each committed row is the answer of a reached step on that message, an archived mail of more than fifty characters |
| MiningHistory.RowsStay | src/mining_rig.py:304-418 | and every row such a step stores is in the tables for good |
| MiningHistory.CountersAre | src/mining_rig.py:304-434 | skipped counts the filtered messages, errors the answers that are no object, have a kind or a trade action that is no text, or whose failed insert could not be rolled back, and the created counts the rows the schema accepted |
| MiningHistory.MiningExactlyOnce | src/mining_rig.py:62-80 | in every committed state of every history a message has at most one row over both tables, and one only if it is mined |
| MiningHistory.DividendVanishes | src/init_gold_db.py:99-107 | a dividend is mined without a row and without moving any counter but processed |
| MiningHistory.ReportedCountsExact | src/mining_rig.py:353-394 | reported created count = rows committed + rows counted and then rolled back, per table |
| MiningHistory.NothingLost | src/mining_rig.py:353-397 | the reported count is exact if and only if no counted row was rolled back |
| MiningHistory.DrainProgress | src/mining_rig.py:469-478 | n batches whose marks hold take n times the limit off the queue |
| MiningHistory.DrainEmpties | src/mining_rig.py:469-481 | the drain loop reaches the empty queue exactly with batch number queue / limit, rounded up |
| Router.AmountIsLargest | src/data_router.py:176-194 | the extracted amount is the largest number of the text strictly between 0 and 10 million, and none if there is none |
| Router.RouterMiner.ExtractAmount | src/data_router.py:176-194 | the scan over the matches computes that amount |
| Router.RouterMiner.CommitRow | src/data_router.py:302-305 | the row's own session: durable unless the commit failed, successful only if acknowledged |
| Router.RouterMiner.RouteIncomingData | src/data_router.py:197-393 | which row is committed, and success exactly for an acknowledged candidate; every failure carries an error text |
| Router.RouterMiner.MarkAsMined | src/mining_rig_with_router.py:61-72 | the mark is independent of the row and may be lost |
| Router.RouterMiner.Tally | src/mining_rig_with_router.py:160-178 | the counter a routing result moves |
| Router.RouterMiner.AttemptOn | src/mining_rig_with_router.py:149-191 | one message, with a death before or after the row commit, or an interrupt after which the mark still runs |
| Router.RouterMiner.ProcessEmails | src/mining_rig_with_router.py:144-209 | a batch is the specified fold over its messages |
| Router.CountersExact | src/mining_rig_with_router.py:160-182 | each route's counter is its acknowledged rows, everything else is an error, `no_route` stays 0, and the counters add up to the messages |
| RoutingHistory.CandidateSane | src/data_router.py:278-287 | a row for the finance table is strictly between 0 and 50,000 dollars |
| RoutingHistory.CandidateCarries | src/data_router.py:232-381 | the row of a message is in the table of its route with the largest number of its text between 0 and 10 million; invoices need one below 50,000, legal rows carry none, and without a route there is no row |
| RoutingHistory.EmailStores | src/data_router.py:250-381 | a message adds exactly that row if and only if its own session commits |
| RoutingHistory.RowsComeFrom | src/mining_rig_with_router.py:144-192 | over every history each row is that of a reached step on its message |
| RoutingHistory.RowsStay | src/mining_rig_with_router.py:144-192 | and every row such a step commits stays |
| RoutingHistory.SucceedsIff | src/mining_rig_with_router.py:160-178 | a route counter moves if and only if the message has a row and its commit is acknowledged |
| RoutingHistory.RoutingBounded | src/mining_rig_with_router.py:61-192 | over every history rows(e) ≤ [e mined] + attempts on e that ended without a committed mark, counted from the history's steps; every invoice row is in range |
| RoutingHistory.DuplicatesReachBound | src/mining_rig_with_router.py:144-192 | for every n a valid history with n lost marks leaves one unmined message with n rows |
| GmailWatcher.Watcher.CreateDraft | src/gmail_watcher.py:426-475 | a draft may exist although the program saw an error |
| GmailWatcher.Watcher.ApplyLabels | src/gmail_watcher.py:478-506 | the labels are added in one write or not at all |
| GmailWatcher.Watcher.ProcessMessage | src/gmail_watcher.py:667-757 | one message's effect on the mailbox, the statistics and the log, with a death at any of three points |
| GmailWatcher.Watcher.ProcessInbox | src/gmail_watcher.py:640-762 | a pass is the specified fold; statistics and log are those of its messages |
| GmailWatcher.Watcher.WatchLoop | src/gmail_watcher.py:803-811 | the totals are the sums over the finished cycles |
| GmailWatcher.FailuresEscalate | src/gmail_watcher.py:513-539 | every failed result escalates, so the branch that would count a message nowhere is dead |
| GmailWatcher.PassBalanced | src/gmail_watcher.py:650-762 | processed = drafted + escalated + skipped + errors, and processed is the number of messages |
| GmailWatcher.TotalsBalanced | src/gmail_watcher.py:800-811 | the same over any number of cycles |
| GmailWatcher.LogMatchesStats | src/gmail_watcher.py:695-757 | one log entry per message not skipped, with the actions counted |
| WatcherHistory.EffectLawful | src/gmail_watcher.py:699-757 | one message's processing keeps the draft and label law |
| WatcherHistory.EffectIs | src/gmail_watcher.py:513-757 | one step makes a draft if and only if it is live, not filtered out, the reply is not flagged, no emergency, at or above the threshold, not general without examples and successful, and the writes begin and the call is not refused; AI-Drafted needs the id and the label write as well, AI-Human-Help any other reply and its label write |
| WatcherHistory.StatsAre | src/gmail_watcher.py:667-757 | each statistic of a pass counts the messages of its kind, in the same terms |
| WatcherHistory.LogEntryIs | src/gmail_watcher.py:695-757 | a message that is not filtered out leaves one log entry with its id and kind |
| WatcherHistory.DraftLabelLaw | src/gmail_watcher.py:640-762 | over every history: the drafts are the steps that made one, = [AI-Drafted] + drafts no label write followed; AI-Drafted and AI-Human-Help are there if and only if a step labelled for that reason; AI-Processed exactly with one of them, never both |
| WatcherHistory.ProcessedFrozen | src/gmail_watcher.py:112 | a processed message is never fetched again and its labels and drafts never change |
| RateLimiter.KeysSeparate | gateway/cloudflare_worker.js:428-432 | two callers share a bucket if and only if they are of the same kind with the same subject or address; a missing one reads as a fixed word |
| RateLimiter.Limiter.CheckRateLimit | gateway/cloudflare_worker.js:191-218 | the decision and the stored bucket, kept for 120 seconds; open without a store |
| RateLimiter.StoreRepresents | gateway/cloudflare_worker.js:194-215 | the store always holds the counts of every minute that is not over, and no entry expires before its minute |
| RateLimiter.DecisionIsReference | gateway/cloudflare_worker.js:191-218 | every decision equals counting the whole history by minutes: the j-th request of a minute is admitted if and only if j ≤ its own limit |
| RateLimiter.EvictionIrrelevant | gateway/cloudflare_worker.js:213-215 | dropping entries after their 120 seconds never changes a decision |
| RateLimiter.WindowAdmits | gateway/cloudflare_worker.js:206-208 | a minute admits at most min(limit, seen) requests of that limit |
| RateLimiter.IntervalAdmits | gateway/cloudflare_worker.js:191-218 | an interval of at most 60 seconds admits at most twice the limit |
| RateLimiter.TwiceLimitReached | gateway/cloudflare_worker.js:196-204 | and the seconds 59 and 60 can admit exactly that many |
| RateLimiter.MinuteAdmits | gateway/cloudflare_worker.js:42-44 | in numbers: at most 10 TITAN and 200 other requests in any 60 seconds |
| RateLimiter.TitanStarved | gateway/cloudflare_worker.js:428-434 | from five up to a hundred requests of any kind in a minute, a key's TITAN request is refused while its ordinary ones pass |
| Groundskeeper.Keeper.IngestOne | src/groundskeeper.py:157-208 | which rows are taken and the turnover each inserts |
| Groundskeeper.Keeper.IngestReservations | src/groundskeeper.py:136-213 | the import is the fold over its rows; taken + skipped = rows |
| Groundskeeper.Keeper.GenerateFor | src/groundskeeper.py:241-331 | the statements for one turnover in order, cut off after any number of them |
| Groundskeeper.Keeper.GenerateTasks | src/groundskeeper.py:219-337 | a run with any number of statements to live is the specified run |
| KeeperHistory.RunView | src/groundskeeper.py:240-331 | a run changes each turnover's share by exactly the statements it got through for it |
| KeeperHistory.RunGrowth | src/groundskeeper.py:238-337 | the reported count is the growth of the task table for a run that lived, and at most that otherwise |
| KeeperHistory.KeeperSane | src/groundskeeper.py:136-337 | after any history, wherever runs died: tasks of a turnover are a prefix of its plan, all of it once IN_PROGRESS, and windows are 5 + 24·d hours |
| KeeperHistory.TypesOnce | src/groundskeeper.py:267-320 | at most one task of each type; IN_PROGRESS means one CLEANING, one INSPECTION, and one HOT_TUB if and only if the property lists a tub of gallons other than zero |
| KeeperHistory.TasksCalledFor | src/groundskeeper.py:241-315 | after any history every task is for its turnover's property and due 60 minutes plus the property's SLA, or 240 minutes without one, after checkout, the inspection an hour later; a HOT_TUB task is of a property with a tub of gallons other than zero |
| KeeperHistory.PriorityByGap | src/groundskeeper.py:259-265 | a cleaning is urgent for a gap below four hours and normal for four or five; a gap of zero or none counts as long |
| KeeperHistory.ImportMakes | src/groundskeeper.py:157-208 | what an import adds are the turnovers of its complete rows for known properties, out at 11:00 and in at 16:00, and every such row without a conflict has its own |
| KeeperHistory.TurnoversComeFrom | src/groundskeeper.py:157-208 | after any history every turnover comes from such a row of some import |
| KeeperHistory.FrozenForever | src/groundskeeper.py:267-274 | once a CLEANING task exists no later event changes the turnover or its tasks |
| KeeperHistory.RerunChangesNothing | src/groundskeeper.py:219-337 | after a run that lived another run changes no turnover and no task |
| KeeperHistory.FreshRun | src/groundskeeper.py:240-322 | a run that lives completes every pending turnover without tasks |
| KeeperHistory.CrashRecovery | src/groundskeeper.py:59-337 | a death is repaired by the next run if and only if it did not fall between the first task and the status update; otherwise the turnover keeps the tasks it had |
| KeeperHistory.ReservationToTasks | src/groundskeeper.py:172-288 | window = 5 + 24·d hours; URGENT, NORMAL, LOW as d is negative, zero, positive; the inspection is due an hour after the cleaning, and meets check-in if and only if SLA ≤ 60·window − 120; the default misses a same-day check-in by an hour |
| KeeperHistory.KeysOnce | src/groundskeeper.py:197-208 | if ON CONFLICT acts on reservation and property, an import keeps at most one turnover for each |
| KeeperHistory.ReimportAddsNothing | src/groundskeeper.py:197-208 | and importing the same file again adds and changes no turnover |
| KeeperHistory.NoKeyRepeats | src/groundskeeper.py:197-208 | if no constraint ever fires, every import adds a turnover for every accepted row |
| Common.RoundsToNearest | tools/classification_janitor.py:387 | the two-decimal rounding is to the nearest, ties to even |
| Notes.Fixed2Parses | tools/classification_janitor.py:387 | a two-decimal number reads back as the rounded value |
| Notes.ScanReadsBack | tools/classification_janitor.py:304-307 | for every confidence and reasoning text, even one with `confidence=` or a bar, and whatever the database makes of other notes, the note starts with `confidence=` and the scan reads the confidence written |
| Notes.AuditReadsBack | tools/audit_sample.py:127-133 | the audit sampler prints the same two decimals and the rest of the note |
| Janitor.NightShift.Review | tools/classification_janitor.py:351-421 | one vendor's decision: counters, row update, dry run |
| Janitor.NightShift.NightlyRun | tools/classification_janitor.py:325-421 | a night over the scanned vendors is the specified fold |
| Janitor.StatsBalance | tools/classification_janitor.py:351-405 | reviewed = corrected + flagged + unchanged + errors |
| JanitorHistory.NoteThreshold | tools/classification_janitor.py:369-387 | rounding carries no correction back below the scan's threshold |
| JanitorHistory.TreatedCandidate | tools/classification_janitor.py:300-418 | a candidate leaves the queue if and only if it is corrected, or flagged with a known class at 65 hundredths or more; its note stays readable |
| JanitorHistory.TreatIs | tools/classification_janitor.py:358-418 | a differing verdict of 0.95 or more sets the class, revenue exactly for three classes, expense exactly for ten, author and note; one below 0.95 only the note; any other answer nothing |
| JanitorHistory.CorrectedIsSettled | tools/classification_janitor.py:133-144 | a corrected vendor is no candidate; it has revenue if and only if its class is REAL_BUSINESS, CROG_INTERNAL or TENANT_GUEST, and expense if and only if it is one of the ten of line 136 |
| JanitorHistory.ChangedByVerdict | tools/classification_janitor.py:358-388 | over any nights a vendor whose class changed has the class of a reached verdict of 0.95 or more, the flags of that class, and is out of the queue |
| JanitorHistory.VerdictStays | tools/classification_janitor.py:376-388 | and the class such a verdict gives a vendor of another class stays from that night on |
| JanitorHistory.StatsAre | tools/classification_janitor.py:351-405 | corrected, flagged and errors count the verdicts of 0.95 or more that differ, the others that do, and the failed answers |
| JanitorHistory.UnknownFirst | tools/classification_janitor.py:300-311 | a scan cut short leaves no UNKNOWN vendor behind for one with a class |
| JanitorHistory.Convergence | tools/classification_janitor.py:300-421 | over any nights, answers and casts of foreign notes the candidate set never gains a vendor and each vendor is corrected at most once |
| JanitorHistory.NonCandidateFrozen | tools/classification_janitor.py:300-311 | a vendor that is no candidate is never scanned or changed again |
| JanitorHistory.CorrectionsBounded | tools/classification_janitor.py:300-388 | the corrections of any number of nights are at most the first night's candidates |
| GpuHandover.Handover.ListPods | src/nightly_finetune.py:157-174 | the pods named, none after a non-zero exit, or the raised failure; the event keeps the pods there were |
| GpuHandover.Handover.Scale | src/nightly_finetune.py:269-274 | an accepted command is applied; a refused one may be |
| GpuHandover.Handover.WaitForPodsGone | src/nightly_finetune.py:207-222 | returns exactly on a listing that reads as no pods, also one that exited non-zero; times out only if the last listing names a pod and the ceiling has passed |
| GpuHandover.Handover.WaitForMemory | src/nightly_finetune.py:224-252 | ends with a release reading or at the ceiling |
| GpuHandover.Handover.WaitForGpuReleased | src/nightly_finetune.py:190-252 | both phases under one ceiling |
| GpuHandover.Handover.PollUntilStopped | src/nightly_finetune.py:276-283 | how the polls after the scale-down end; two listings that exit non-zero end them as if stopped |
| GpuHandover.Handover.StopVllm | src/nightly_finetune.py:255-290 | true only for a pod read as running, an accepted scale-down and a last listing read as no pods; false touches nothing; which blind listings make it return |
| GpuHandover.Handover.StartVllm | src/nightly_finetune.py:293-326 | one scale-up; returns exactly on a healthy answer, raises the uncaught error exactly if the command is refused |
| GpuHandover.Handover.RunBlock | src/nightly_finetune.py:800-809 | the training block up to its first step that fails |
| GpuHandover.Handover.Prepare | src/nightly_finetune.py:722-776 | the checks before anything is stopped, in their order, with the exit each gives |
| GpuHandover.Handover.RunNight | src/nightly_finetune.py:722-841 | every night is one of the specified ones, with its exit code and replicas; if the first listing, or the two after the scale-down, exit non-zero, the night trains whatever pods there are |
| GpuHandover.TrainingAfterEmptyListing | src/nightly_finetune.py:190-225 | whatever fails: no training step follows a scale-down without a listing in between that read as no pods, and nothing was scaled since |
| GpuHandover.GoneWhenTraining | src/nightly_finetune.py:207-225 | if no pod is there at the last listing after a stop and pods gone stay gone, none is there when training begins |
| GpuHandover.TrainingIsSafe | src/nightly_finetune.py:157-283 | training begins with pods present at the listing that allowed it if and only if that listing exited non-zero beside them, or was the first and named only pods that were not Running; if pods gone stay gone, pods at the beginning of training after a stop mean a blind last listing |
| GpuHandover.BlindNights | src/nightly_finetune.py:157-174 | the two failing inputs: nights that train beside Running pods after a non-zero exit of the first, and of the last listing |
| GpuHandover.RestartOncePerStop | src/nightly_finetune.py:823-839 | at most one stop; once training began exactly as many starts as stops, and none if it did not |
| GpuHandover.IdleNights | src/nightly_finetune.py:732-776 | a night that is not staged exits 1, one whose export or data fail, or whose deps do, raises, and a dry run or one with fewer than five or the configured minimum of records exits 0; none stops, trains or starts anything |
| GpuHandover.WhatRuns | src/nightly_finetune.py:798-809 | the training block begins on all other nights whose stop, if wanted, returned; evaluation runs if and only if training succeeded, the push if and only if both did and it is configured |
| GpuHandover.ZeroMeansDone | src/nightly_finetune.py:798-841 | exit code 0 if and only if the night had its data and was a dry run or short of records, or every step succeeded and a stopped deployment is healthy again |
| GpuHandover.RaisedMeans | src/nightly_finetune.py:733-841 | a night ends in an exception if and only if export, data or deps fail, the stop fails other than by its timeout or cannot leave its note, a stage is interrupted, or the restart is refused |
| GpuHandover.ReplicasLeft | src/nightly_finetune.py:783-839 | the replicas left: unchanged without a stop, 1 after a restart that took effect, 0 after a stop that timed out, always 1 on exit code 0 after a stop |
| BudgetLoop.GapBound | fortress-guest-platform/backend/services/labeling_pipeline.py:61-101 | no fallback teacher costs more than $0.005145 beyond its task's estimate |
| BudgetLoop.CallGodhead | fortress-guest-platform/backend/services/labeling_pipeline.py:188-227 | the first teacher that answers and its price, or no label at no cost |
| BudgetLoop.FirstAnswerIs | fortress-guest-platform/backend/services/labeling_pipeline.py:200-227 | the answer charged is that of the first teacher that answers, and there is none if none does |
| BudgetLoop.LegalCosts | fortress-guest-platform/backend/services/labeling_pipeline.py:62-67 | whom the four legal tasks ask in turn, their prices, and the estimate of $0.0045 |
| BudgetLoop.CodeCosts | fortress-guest-platform/backend/services/labeling_pipeline.py:68-71 | the same for the code tasks |
| BudgetLoop.VisionCosts | fortress-guest-platform/backend/services/labeling_pipeline.py:72-75 | the same for the vision tasks |
| BudgetLoop.LiveCosts | fortress-guest-platform/backend/services/labeling_pipeline.py:75-83 | the same for live data and summaries |
| BudgetLoop.LogicCosts | fortress-guest-platform/backend/services/labeling_pipeline.py:78-89 | the same for mathematics, logic and prices |
| BudgetLoop.HouseCosts | fortress-guest-platform/backend/services/labeling_pipeline.py:84-90 | the same for the concierge and business tasks |
| BudgetLoop.OtherCosts | fortress-guest-platform/backend/services/labeling_pipeline.py:92 | any other task asks the two default teachers |
| BudgetLoop.Backfill.WriteLabel | fortress-guest-platform/backend/services/labeling_pipeline.py:234-268 | one label per capture, its cost rounded to four decimals by the column; a failed insert is swallowed |
| BudgetLoop.RoundingPerTeacher | fortress-guest-platform/backend/alembic/versions/c255801e28a0_add_labeling_tables.py:39 | a DeepSeek label records $0.000045 too much, a Gemini label $0.000025 too little, the rest exactly |
| BudgetLoop.Backfill.Run | src/backfill_label_historical.py:83-157 | a run is the specified loop; labelled + errors + skipped = rows |
| BudgetLoop.LoopCounts | src/backfill_label_historical.py:105-147 | the skipped rows are a suffix that starts where the estimate no longer fits; a dry run writes no label |
| BudgetLoop.SpentIs | src/backfill_label_historical.py:105-140 | a dry run adds up estimates, a live run what its answers cost; each row handled fitted when its turn came and the first row left did not |
| BudgetLoop.LabelsAre | src/backfill_label_historical.py:129-140 | the new labels are those of handled rows with the first teacher that answered, at its price to four decimals, and every handled row whose call returned and whose insert committed has one |
| BudgetLoop.DryWithinBudget | src/backfill_label_historical.py:109-127 | a dry run never plans beyond what is left |
| BudgetLoop.LiveOvershoot | src/backfill_label_historical.py:109-140 | a live run exceeds what is left by at most one row's cost minus its estimate, never by a sum of them |
| BudgetLoop.LiveBound | src/backfill_label_historical.py:109-140 | so by at most $0.005145 |
| BudgetLoop.GapReached | src/backfill_label_historical.py:109-140 | and a mathematics task whose first two teachers fail reaches it |
| BudgetLoop.DayBound | fortress-guest-platform/backend/services/labeling_pipeline.py:128-143 | over any runs of a day: labels only grow, one per capture, and what is newly recorded is at most 80/71 of the budget left at the start plus $0.0051 |
| BudgetLoop.RecordedBoundReached | src/backfill_label_historical.py:109-140 | that bound is reached for budgets of every size |
| BudgetLoop.TwentyDollars | fortress-guest-platform/backend/services/labeling_pipeline.py:55 | at the default of $20, DeepSeek answers alone are recorded as $22.5352 |
| BudgetLoop.RecordsExactly | src/backfill_label_historical.py:129-140 | recorded + 25·Gemini labels + lost costs = charged + 45·DeepSeek labels, in millionths of a dollar |
| BudgetLoop.ChargesRecordedIff | src/backfill_label_historical.py:129-140 | the labels record the charges if and only if 45·DeepSeek = 25·Gemini + lost costs; with every charged row committed, if and only if 9·DeepSeek = 5·Gemini |
| BudgetLoop.WholePricesRecordedIff | src/backfill_label_historical.py:129-140 | without recorded DeepSeek and Gemini answers, if and only if every charged row was committed |
| BudgetLoop.OneLabelMisrecords | fortress-guest-platform/backend/alembic/versions/c255801e28a0_add_labeling_tables.py:39 | one committed `math_reasoning` label records more, one committed `ocr` label less, than was charged |
| BudgetLoop.DayCharges | fortress-guest-platform/backend/services/labeling_pipeline.py:128-143 | if every insert commits, a day charges at most 65/64 of the budget left at its start plus $0.00514 |
| BudgetLoop.ChargeBoundReached | src/backfill_label_historical.py:109-140 | that bound is reached by days of every length: each run within its own remaining budget, the day $0.000025 per Gemini label over |
| BudgetLoop.LostLabelsCharge | fortress-guest-platform/backend/services/labeling_pipeline.py:266-268 | n runs with lost inserts charge n times a budget of one call and record nothing |
| TopicClassifier.ScoreTopic | prompts/topic_classifier.py:269-293 | one point per keyword, two per pattern, times the weight, with the matches in order |
| TopicClassifier.ScoreCounts | prompts/topic_classifier.py:269-293 | the score is one point for each keyword and two for each pattern that match, times the weight |
| TopicClassifier.ClassifyTopic | prompts/topic_classifier.py:245-330 | empty mail, or mail no topic scores in, is ("general", 0); otherwise the choice from the scored topics |
| TopicClassifier.RankedSorts | prompts/topic_classifier.py:305 | the ranking is a permutation by falling score |
| TopicClassifier.RankedStable | prompts/topic_classifier.py:305 | topics of equal score keep their profile order |
| TopicClassifier.PrimaryIsFirstMax | prompts/topic_classifier.py:307-308 | the primary is the first topic in profile order of the highest score |
| TopicClassifier.SecondaryIsNext | prompts/topic_classifier.py:318-327 | the secondaries are the next ranked topics, all with ten times their score at least three times the primary's, cut at three |
| TopicClassifier.ChoiceDistinct | prompts/topic_classifier.py:318-327 | no topic is named twice |
| TopicClassifier.ConfidenceIsShare | prompts/topic_classifier.py:310-328 | the confidence is, to the nearest hundredth, three times the score over the points the profile lists, and 1 from there on; it is 0 for general mail and for shares of at most half a hundredth, which no profile with fewer points than 600 times its weight has |
| TopicClassifier.MatchedExplains | prompts/topic_classifier.py:329 | the listed matches are the first five of the primary's, and never none |
| ContextSlicer.Open | prompts/context_slicer.py:207-249 | header, overview and primary section in the code's branches are the specified parts |
| ContextSlicer.ExtendLaw | prompts/context_slicer.py:252-262 | added topics are available, new, from the offer and limited; below the limit no available offer is missed |
| ContextSlicer.ChosenLaw | prompts/context_slicer.py:232-262 | no section twice, the primary first if the cabin has it |
| ContextSlicer.ContextLength | prompts/context_slicer.py:210-265 | the exact length of a context from header, overview and sections |
| ContextSlicer.SubsetFits | prompts/context_slicer.py:271-275 | distinct sections with their separators fit into the full text |
| ContextSlicer.SliceFits | prompts/context_slicer.py:264-275 | the context exceeds header, overview text and full text together by at most 16 characters |
| ContextSlicer.OverviewIff | prompts/context_slicer.py:226-249 | a slice has an overview if and only if the cabin has a summary and the primary topic has no section here, or is general, amenities or activities and the summary is asked for |
| ContextSlicer.TextHolds | prompts/context_slicer.py:210-265 | the text starts with the header and holds the overview text and every chosen section |
| ContextSlicer.SliceHolds | prompts/context_slicer.py:207-265 | the slice lists the summary exactly then, otherwise only the primary and the first two secondaries with a section, and its text holds the text of all it lists; the primary is in if the cabin serves it, a secondary if the limit leaves room |
| ContextSlicer.FullTextHolds | prompts/context_slicer.py:271-275 | the full text it is weighed against holds every section |
| Common.StripIs | prompts/context_slicer.py:228 | stripping leaves the part between two runs of white space, which starts and ends with none |
| ContextSlicer.SliceContext | prompts/context_slicer.py:174-285 | the slice's text and topic list, and all that `SliceHolds` says of them; at most 2 + min(2, max(0, max_sections − 1)) entries, none twice; the size bound |
| Escaping.EscapeIsMap | gateway/storefront_seo_worker.js:34-41 | the five sequential passes equal one simultaneous character map |
| Escaping.EscapeAt | gateway/storefront_seo_worker.js:34-41 | wherever they stand `&`, `<`, `>`, `"` and `'` become `&amp;`, `&lt;`, `&gt;`, `&quot;` and `&#39;`, and any other character stays |
| Escaping.EscapeSafe | gateway/storefront_seo_worker.js:34-41 | no raw `<`, `>`, `"` or `'` is left |
| Escaping.EscapeRoundTrip | gateway/storefront_seo_worker.js:34-41 | reading the entities back gives the original |
| Escaping.EscapeInjective | gateway/storefront_seo_worker.js:34-41 | different texts stay different |
| Escaping.NoCloseTag | gateway/storefront_seo_worker.js:43-45 | the script-safe text contains no `</` |
| Escaping.CloseAt | gateway/storefront_seo_worker.js:43-45 | every `</` becomes `<\/`, whatever stands around it |
| Escaping.NothingToClose | gateway/storefront_seo_worker.js:43-45 | text without one is left alone |
| Escaping.CloseEscapeReadsSame | gateway/storefront_seo_worker.js:43-45 | a reader of JSON strings (section 7 of RFC 8259) gets the same tokens before and after, or refuses both |

## Left out

- Network, database, mail, vector-store, cluster and subprocess plumbing: every such call is an outcome with its effect on
  the store.
- Keyword tables, regular expressions, prompts, language-model answers and model training: their results are inputs.
- Reindex.Reindexer.ProcessBatch: the embedder is a function that answers every text with one vector, so the silent truncation of `zip`
  (src/reindex_legal_qdrant_to_legal_embed.py:186-189) cannot occur; an embedding that fails for good ends the run inside the
  window and is one of the crashes. The source does not change during a history.
- Reindex.Reindexer.RunReindex: the worker semaphore and the progress lines are not modelled; `--resume-from` with something
  that is no point id is not either.
- Two miners at once: the code takes no lock, and all statements are for a single one.
- MiningRig.Miner.WorkOn: the spam filter, amount cleaning, dates and text cuts are inputs; `.upper()` is taken as given by the field.
- MiningHistory.DrainEmpties: the sleeping and retrying of the endless loop around the batches, and mail that arrives meanwhile.
- Router.RouterMiner.RouteIncomingData: which route the keywords select, and the enrichment after the commit, whose failure is swallowed.
- GmailWatcher.Watcher.WatchLoop: the interval between polls, notifications and the label cache.
- RateLimiter.Limiter.CheckRateLimit: reads and writes of the store are taken as atomic and the clock as never running backwards; interleaved or stale reads of
  the eventually consistent store are not modelled.
- Groundskeeper.Keeper.IngestOne: the schema of `ops_turnovers` is not part of this repository, so whether ON CONFLICT finds a row is an input
  (`KeeperHistory.KeysOnce` and `KeeperHistory.NoKeyRepeats` take the two ends); files, date formats and `ops_properties` imports are left out, and a property's SLA and tub do not change during a history.
- Janitor.NightShift.NightlyRun: precedents, learned rules and pauses; no one else edits the vendors between nights.
- Notes.ScanReadsBack: for finite confidences; not-a-number, infinities and negative zero have no counterpart in the reals. A cast that
  reads a foreign note as NUMERIC's NaN, which sorts above every number, is modelled as one that reads a large number.
- GpuHandover.Handover.RunNight: a process killed outright runs no `finally`; files written on failure are outcomes only. Reading the
  listing is abstracted to the set of pod states.
- GpuHandover.Handover.ListPods: a command that exits non-zero is taken to print nothing.
- BudgetLoop.Backfill.Run: all labels of the history belong to one day and no one else writes labels meanwhile; costs charged by a provider for
  unusable answers are not accounted, as in the code.
- TopicClassifier.ConfidenceIsShare: scores and shares are exact numbers, not floating point.
- ContextSlicer.SliceContext: the header line and the loading and caching of cabin files are inputs.
- Escaping.CloseEscapeReadsSame: JSON's grammar of values is not checked, only its characters and strings, and the serializer itself is foreign code.
- Dashboards, mail rendering, command lines, signatures and HTML rewriting, and `debug_body.py`, whose parser drops ordinary characters.
