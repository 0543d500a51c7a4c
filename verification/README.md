# Verification of the zymobrew core

A Dafny model of the parts of zymobrew where concurrency, ordering or arithmetic is subtle, with proofs of what
they promise. `dafny verify dfyconfig.toml` checks everything.

| files | what they model |
|---|---|
| RateLimit | the keyed token-bucket limiter with lazy eviction |
| ClaimQueue | `ORDER BY ... LIMIT ... FOR UPDATE SKIP LOCKED` claims |
| ExportModel, ExportSafety, ExportRuns, ExportReach, ExportLife, ExportAbandoned, ExportExact, ExportTriggers, ExportDownloads, ExportExample, ExportBackend, ExportWorkers, ExportRequests | user exports and admin backups: rows and blobs without a shared transaction |
| RecipeModel, RecipeSafety, RecipeRuns, RecipeHandlers, RecipeTorn | recipe revisions under concurrent transactions and row locks |
| Pagination | keyset pages and the client's walk over them |
| ReminderModel, ReminderSafety, Reconcile, ReminderHandlers | templates, reminders, notifications and the dispatcher |
| StageAdvance | batch events that advance the stage, and PATCHes that set it |
| Units, InventoryMatch, InventoryLaws | unit conversion and matching a recipe against the inventory |
| RealIp | the X-Forwarded-For walk |
| Calc | gravity calculators over exact reals |
| Wrappers, Text, Fresh, Collections | shared types, white space, unused ids, facts about sequences and sets |

## How to read it

Protocols are state machines: an `Action` per SQL statement, store call, error or crash, `Enabled` for its guard,
`Apply` for its effect, and `ValidRun` for any interleaving. Main results are about every run. The code itself
(handlers, jobs, loops) is written as methods over a class that holds the tables. Between two statements such a
method calls `Interfere` (`OthersAct` for reminders, `AwaitRow` where it waits for a row lock), whose contract allows
any steps of anybody else; the contracts say the code moves only along runs (`Reaches`, `Leads`), so the run results
apply to it. Ghost results such as `late` name a state in the middle of such a run. Contracts also spell out what a
statement does, column by column and with its constants, apart from the functions that the steps are made of.

Each SQL statement is one atomic step. Ids are natural numbers that are never handed out twice, times are
integers, amounts and gravities are reals. Clock readings, failures and contents of archives are
parameters; fresh ids and the order in which the database lists rows are arbitrary choices.

## Where the code and its promises part

- `New` accepts any idle TTL, but eviction goes unnoticed only if a full refill takes at most `idleTTL + 1` ns;
  with a shorter TTL, eviction forgives debt (`RateLimit.EvictionInvisibleIff`). The server's limiters are above it.
- `walkXFF` is documented to return the first untrusted entry, or the peer for a trusted chain. It does so if and
  only if it does not stop at a malformed entry; there it returns the peer (`RealIp.DocumentedIff`,
  `RealIp.MalformedHeader`).
- An export whose worker stops stays `running`, and so does one whose failure is not recorded, because the error of
  that UPDATE is dropped (internal/jobs/user_export.go:44-47); no other step does this (`ExportAbandoned.AbandonsIff`).
  Such a row stays as it is exactly until its owner is anonymised (`ExportAbandoned.AbandonedForGood`), and until then
  the user cannot request another export (`ExportRequests.HandleTriggerExport`).
- A completing UPDATE that takes effect but reports an error is followed by the unguarded one that marks the export
  failed (internal/queries/exports.sql.go:331-334), the only way in which a complete row becomes anything but expired
  or deleted (`ExportLife.EndsIff`).
- The check for an active export and the insert are two statements, so a user can come to have two active exports:
  exactly when a request is overtaken by another one's insert between its look and its own
  (`ExportTriggers.OneActiveThroughoutIff`, `ExportTriggers.OverlappingTriggers`).
- A comment says that concurrent downloads of one export all succeed (internal/server/exports.go:118-120); but one
  fails exactly if somebody deleted the file between its read of the row and its read of the file
  (`ExportDownloads.FileIsGoneIff`, `ExportDownloads.LateDownloadFails`).
- Anonymising an account while one of its exports runs can leave the archive in the store for good, with no row
  that names it (`ExportExact.QuietStore`, `ExportExact.SurplusHappens`).
- A fork reads its source twice without a lock. It copies the revision that it records as its origin if and only if
  the revision current at its second read has the same ingredients (`RecipeHandlers.CopiesOriginIff`); otherwise it
  may copy no revision at all (`RecipeTorn.ForksMayTear`).
- A PATCH may revive a cancelled or dismissed reminder while another is live, which breaks "one live reminder per
  template and batch" (`ReminderSafety.OneLiveIff`, `ReminderSafety.RevivalMakesTwins`).
- The comment that auto-advancement only moves forward holds one request at a time, not for overlapping ones: apart
  from a PATCH to an earlier stage, the stage drops exactly where a request was overtaken between its read and its
  write (`StageAdvance.StageDropsIff`, `StageAdvance.OverlapLosesBottling`).
- `PitchRate` accepts original gravities below its root, about 1.0000077, and returns negative amounts for them
  (`Calc.PitchRateAroundRoot`, `Calc.PitchRatePositiveIff`); `PredictedFG` likewise predicts a zero or negative ABV at
  or below the gravity of water (`Calc.PredictedABVSign`).

## Model

| member | source | states |
|---|---|---|
| RateLimit.Limiter.Allow | internal/ratelimit/ratelimit.go:48-66 | A call evicts if due, then charges the key's bucket. Where a full bucket refills within idleTTL + 1 ns, it is allowed exactly if a token fits a full bucket and, for every earlier allowed call of the key, the allows from that one on, this one included, cost at most a full bucket and the refill since; denied calls do not count |
| RateLimit.Limiter.EvictIdle | internal/ratelimit/ratelimit.go:76-83 | The sweep removes exactly the entries last seen more than idleTTL ago and changes no other |
| RateLimit.EvictionInvisibleIff | internal/ratelimit/ratelimit.go:48-83 | Over every run of calls on any keys at non-decreasing times, all verdicts equal those of never-evicted buckets if and only if a full refill takes at most idleTTL + 1 ns; proved with a failing run for every other configuration |
| RateLimit.VerdictIsSolo | internal/ratelimit/ratelimit.go:48-68 | Then a verdict depends on the key's own call times alone, whatever other keys do |
| RateLimit.AllowedIff | internal/ratelimit/ratelimit.go:48-66 | The same of the last call of any chronological run |
| RateLimit.ServerLimits | internal/server/server.go:62-67 | In numbers for the server's three: ten calls and one more every 2 s, five and one more every 12 s, five and one more every 120 s |
| RateLimit.WorthIsKept | internal/ratelimit/ratelimit.go:53-65 | The invariant behind it: at every moment the kept bucket, or a missing one, is worth what the never-evicted bucket is worth |
| RateLimit.WindowBound | internal/ratelimit/ratelimit.go:48-68 | In any window of length d a key gets at most burst + d / every allows, across evictions and re-creations |
| RateLimit.ForgottenDebt | internal/ratelimit/ratelimit.go:76-83 | With a shorter TTL a concrete run is answered differently: a drained bucket is forgotten and drained again |
| RateLimit.EvictionsAreSpaced | internal/ratelimit/ratelimit.go:53-56 | Two sweeps are more than idleTTL / 2 apart |
| RateLimit.LiveBucketsBound | internal/ratelimit/ratelimit.go:53-83 | After every call each surviving bucket belongs to a key that called within one and a half TTLs |
| RateLimit.SizeBound | internal/ratelimit/ratelimit.go:53-74 | So the size of the map is at most the number of keys that called within one and a half TTLs |
| RateLimit.AfterSilence | internal/ratelimit/ratelimit.go:53-74 | After a silence longer than that, exactly the caller's own bucket is left |
| RateLimit.ServerLimitersNeverForget | internal/server/server.go:62-67 | The three limiters the server builds meet the condition |
| ClaimQueue.SelectEarliest | internal/queries/exports.sql.go:56-65 | A claim takes the earliest eligible rows up to its limit, each listed once |
| ClaimQueue.EarlierDueFirst | internal/queries/reminders.sql.go:33-44 | An earliest-first claim serves k rows that were due before any that came due since: exactly max(0, k - limit) of them remain |
| ExportSafety.StepKeepsInv | internal/queries/exports.sql.go:56-65 | Every statement and store call, failing or not, by any actor, keeps the protocol invariant |
| ExportRuns.CompleteRowHasItsBlob | internal/jobs/user_export.go:72-102 | Over every interleaving of dispatchers, downloads, pruners, anonymisation, errors and crashes, a complete row has its blob and records exactly the length and digest of the stored bytes |
| ExportRuns.RankNeverDrops | internal/queries/exports.sql.go:135-141 | A row only moves forward through pending, running, complete, expired or failed, gone |
| ExportRuns.ClaimedAtMostOnce | internal/queries/exports.sql.go:56-65 | In any run an export is claimed at most once |
| ExportRuns.RetiredAtMostOnce | internal/queries/exports.sql.go:267-294 | In any run at most one download or pruner wins the complete-to-expired flip |
| ExportAbandoned.AbandonedForGood | internal/jobs/user_export.go:36-52 | An abandoned job (running, and no worker has it) stays abandoned over a run if and only if no step of the run anonymises its owner |
| ExportAbandoned.AbandonsIff | internal/jobs/user_export.go:41-49 | A step abandons a job exactly when the worker that has it stops or crashes, or gives it up without the failing UPDATE taking effect |
| ExportAbandoned.ClaimantStops | internal/jobs/user_export.go:36-52 | Such a job is reachable: created, claimed, and the dispatcher stops |
| ExportAbandoned.FailureIsNotRecorded | internal/jobs/user_export.go:44-47 | Or with the dispatcher still at work: it cannot build the archive, and the error of the failing UPDATE is dropped |
| ExportReach.CompleteFileIsFrozen | internal/server/exports.go:136-145 | Once a row is complete its file may disappear but never changes |
| ExportLife.EndsIff | internal/queries/exports.sql.go:267-294 | A complete row stays as it is, to the last field, exactly unless its owner's download retires it, the pruner's clock is past its time, its owner is anonymised, or the worker that was told of an error marks it failed |
| ExportLife.CompleteUntilEnded | internal/queries/exports.sql.go:267-294 | So over a run it is still complete and unchanged if and only if no step of the run is one of these: no tick ends an export within its hour |
| ExportExact.QuietStore | internal/account/account.go:27-82 | After any run without errors and crashes, whenever nobody is at work the blobs are the paths of the complete rows and, disjoint from them, exactly the files put for exports whose rows an anonymisation deleted without listing their files |
| ExportExact.SurplusStays | internal/account/account.go:27-82 | However an orderly run goes on, it never deletes one of those files |
| ExportExact.SurplusHappens | internal/account/account.go:27-82 | A reachable one: the account goes while its export runs, and the archive stays in the store with no row left |
| ExportExact.QuietStoreIsExact | internal/jobs/user_export.go:84-103 | In such runs that also anonymise nobody who has an export running, the blobs are exactly the paths of the complete rows |
| ExportBackend.CountingReader.Read | internal/jobs/admin_backup.go:139-148 | Each read is counted and hashed as it passes |
| ExportBackend.CopyToStore | internal/jobs/admin_backup.go:96-121 | Whatever the chunk sizes, the copy succeeds exactly when the source does not fail and the store takes every chunk; then all chunks are written and the receipt is their length and digest |
| ExportBackend.Backend.ClaimPending | internal/queries/exports.sql.go:56-65 | Exactly the earliest pending rows that are not skipped become running, at most five exports or one backup, each with its own path; no other row changes |
| ExportBackend.Backend.CompleteExport | internal/queries/exports.sql.go:135-141 | The completing UPDATE: status, path, receipt and completed_at are set, and an export expires 3,600,000,000 microseconds later; done exactly when it brings back the row; an error may hide an effect |
| ExportBackend.Backend.ExpireUserExports | internal/queries/exports.sql.go:290-294 | A row becomes expired exactly if it is complete and its expires_at is before now; no other changes, and the paths returned are theirs |
| ExportBackend.Backend.DeleteExpiredAdminBackups | internal/queries/exports.sql.go:231-236 | A row goes exactly if it is complete or failed and was completed more than the days of retention ago; no other changes, and the paths returned are theirs |
| ExportBackend.Backend.ExpireUserExportByID | internal/queries/exports.sql.go:267-273 | The guarded flip: a path comes back exactly for the winner |
| ExportWorkers.StoreJob | internal/jobs/user_export.go:61-92 | A job's archive or dump is stored whole, the blob being the concatenation of its chunks and the receipt their length and digest; otherwise the job is given up, exactly for a failing source or store |
| ExportWorkers.RecordJob | internal/jobs/user_export.go:94-103 | The job counts as done only when its row records the receipt; without an error it fails only if the row is gone for good |
| ExportWorkers.ProcessJob | internal/jobs/user_export.go:55-103 | Put, then complete: a successful job has no fault and its row is complete with exactly the archive's receipt, and expires an hour after now; a faultless one fails only for a deleted row |
| ExportWorkers.SettleAll | internal/jobs/user_export.go:41-49 | After the loop every claimed job is done: recorded with the digest of its archive if nothing failed, otherwise failed or gone unless the failing UPDATE failed too; and this stays so |
| ExportWorkers.DeletePaths | internal/jobs/admin_backup.go:129-136 | Every file of the list is gone in the end, except where the store refused; nobody brings one back |
| ExportWorkers.CleanUp | internal/jobs/user_export.go:157-171 | Exactly the exports past expires_at are expired, or the backups past their retention deleted, every other row staying as it is; their files are gone, except where the store refused |
| ExportReach.RecordedForGood | internal/queries/exports.sql.go:135-141 | A recorded receipt stands as long as the row does |
| ExportReach.GoneForGood | internal/server/exports.go:168-186 | A deleted file of a settled job never comes back |
| ExportWorkers.Work | internal/jobs/admin_backup.go:58-75 | A tick claims the earliest pending rows up to its limit, brings each to its end and cleans up, others acting in between; only protocol steps are taken |
| ExportRequests.HandleDownloadExport | internal/server/exports.go:121-186 | Refused exactly without a complete row of the user; answered with 500 exactly when the row read errs, the store errs, or somebody deleted the file between the two reads, and then it is gone for good; a body delivered in full has the announced length and digest, and the row is then complete no longer unless the flip errs |
| ExportDownloads.FileIsGoneIff | internal/server/exports.go:111-139 | From a complete row on, its file is missing exactly if some step of the run deleted it; so concurrent downloads all get it as long as nobody has deleted it before their read |
| ExportDownloads.LateDownloadFails | internal/server/exports.go:111-139 | A reachable run of two downloads that both find the row complete: the first streams, retires and deletes before the second reads the file |
| ExportRequests.RetireExport | internal/server/exports.go:166-186 | After the flip the row is not complete, and the winner has deleted the file unless the store refused; an error leaves both to the pruner |
| ExportRequests.Anonymize | internal/account/account.go:27-82 | When it commits, every export row the user had at the start and every file those rows named are gone for good, except files the store refused to delete |
| ExportRequests.HandleTriggerExport | internal/server/exports.go:33-76 | A new export is inserted exactly if none of the user's was pending or running when the handler looked; the insert makes a second active one exactly if another of the user's, still active, was started since the look, by whoever acted in between |
| ExportTriggers.OneActiveIff | internal/server/exports.go:56-71 | A statement keeps at most one active export per user if and only if it is not an insert for a user who has one |
| ExportTriggers.AlwaysOneActiveIff | internal/server/exports.go:56-71 | So it holds at every moment of a run if and only if no insert of the run is of that kind |
| ExportTriggers.BusyIff | internal/server/exports.go:56-71 | A user without an active export gets one by an insert for that user and in no other way |
| ExportTriggers.OneActiveThroughoutIff | internal/server/exports.go:56-71 | Over every run of requests that look and then insert, amid everything else, every user has at most one active export all the time if and only if no request is overtaken: none inserts after another one's insert for the same user that came after its look and is still active |
| ExportTriggers.AtOnceIsSafe | internal/server/exports.go:56-71 | If each insert followed its look at once, every user would always have at most one |
| ExportTriggers.OverlappingTriggers | internal/server/exports.go:56-71 | A concrete run: two requests of one user look before either inserts, both find nothing, and the user has two pending exports |
| RecipeSafety.StepKeepsInv | internal/queries/recipes.sql.go:769-783 | Every statement of every concurrent create, update or fork, commit and rollback keeps the invariant on committed rows and open transactions |
| RecipeRuns.HistoriesStaySound | internal/server/recipes.go:592-701 | In every committed state a recipe's revision numbers are exactly 1..revision_count, the current revision is the last and equals the live metadata and ingredient multiset, lineage points at real revisions, and fork_count counts the forks |
| RecipeRuns.RevisionsAreImmutable | internal/queries/recipes.sql.go:196-214 | A committed revision is never changed or removed |
| RecipeRuns.NextNumberIsFree | internal/server/recipes.go:661-675 | The UNIQUE (recipe, number) constraint never trips: nobody has or is inserting the next number |
| RecipeRuns.UpdatesAreSerial | internal/queries/recipes.sql.go:769-783 | No lost update: after any interleaving the metadata, visibility and ingredient rows are those of the committed updates applied one after another, each adding one revision; each committed fork adds one to fork_count |
| RecipeRuns.LockIsNeeded | internal/queries/recipes.sql.go:769-783 | Without the row lock taken by the first UPDATE, a reachable state has two updates wanting one revision number |
| RecipeHandlers.Database.UpdateRecipeMeta | internal/queries/recipes.sql.go:769-783 | The UPDATE by the author, when the row lock is free: each of the eight fields is the given value if there is one and stays otherwise, and no other column changes |
| RecipeHandlers.Database.SetRecipeRevision | internal/queries/recipes.sql.go:715-722 | The pointer and the count move together |
| RecipeHandlers.InsertIngredients | internal/server/recipes.go:320-342 | The rows collected are the request's ingredients in order |
| RecipeHandlers.ListIngredients | internal/server/recipes.go:646-652 | A PATCH without ingredients takes exactly the live rows of the moment it reads, which the row lock then keeps |
| RecipeHandlers.RecordAndCommit | internal/server/recipes.go:661-701 | The commit applies everything the transaction wrote to the state it finds, at once |
| RecipeHandlers.AuthorIsFixed | internal/queries/recipes.sql.go:769-783 | Recipes stay, and stay their author's, so a permitted update cannot fail for want of its row |
| RecipeHandlers.HandleCreateRecipe | internal/server/recipes.go:346-453 | In one moment the database gains exactly the recipe, its ingredient rows and revision 1, all as requested, with one snapshot entry for each row |
| RecipeHandlers.HandleUpdateRecipe | internal/server/recipes.go:546-702 | Exactly the author's recipe is updated; amid any other transactions the request takes effect in one moment, as if alone: each field is the given value or else what it was, the ingredient rows are those given or else the live ones, one more revision says field by field what the row and its ingredients now say, and nothing else is touched |
| RecipeHandlers.WriteRecipe | internal/queries/recipes.sql.go:769-783 | The first UPDATE waits for the row lock; the row written is the latest committed one with the patch applied |
| RecipeHandlers.HandleForkRecipe | internal/server/recipes.go:764-892 | Exactly a recipe visible to the user can be forked; in one moment the fork appears with the row and ingredient rows that were read, and is counted on its source; it copies the revision it records as its origin exactly when the one current at the second read has the same ingredients |
| RecipeHandlers.CopiesOriginIff | internal/server/recipes.go:773-801 | That condition, for any two reachable states in which the row and the ingredient rows were read |
| RecipeHandlers.CopyAt | internal/server/recipes.go:837-847 | A copied ingredient row differs from its original only in that an empty unit is none |
| RecipeHandlers.UnchangedSourceIsCopied | internal/server/recipes.go:773-801 | If the source's current revision is the same at both unlocked reads, the fork has that revision's metadata and snapshot |
| RecipeTorn.ForksMayTear | internal/server/recipes.go:773-801 | Otherwise it may copy no revision at all: a reachable fork with the name of the first revision and the ingredients of the second |
| Pagination.ListPage | internal/server/pagination.go:62-72 | The page is the first rows after the cursor by key, then id, ascending or descending as asked, the key being started_at or else created_at; no row is left out but for want of room; there is a next cursor exactly for a full page, with the key and id of its last row |
| Pagination.HandleList | internal/server/pagination.go:35-60 | A bad limit (not an integer from 1 to 100, 50 if none is given) or cursor is refused, and nothing else; otherwise the page and next cursor are those of ListPage |
| Pagination.ListRows | internal/queries/readings.sql.go:133-142 | Picking rows one by one yields the first rows of the sorted list |
| Pagination.OnlyListing | internal/queries/readings.sql.go:93-97 | The sorted list is unique, so paged and unpaged queries can be compared |
| Pagination.FetchAllPages | web/src/api.ts:269-283 | The client loop yields exactly the walk that the next lemmas are about, with keys, then ids, strictly rising in an ascending list and falling in a descending one |
| Pagination.WalkIsOrdered | internal/queries/readings.sql.go:133-142 | Whatever changes between requests, rows arrive in strict (key, id) order, ascending or descending |
| Pagination.RowsAreReal | internal/queries/batches.sql.go:150-159 | Every row that arrives was in the table at one of the requests |
| Pagination.StableArrivesOnce | web/src/api.ts:269-283 | If the walk ends, every row present throughout with an unchanged key arrives exactly once |
| Pagination.FixedWalk | web/src/api.ts:269-283 | On a fixed table of n rows the walk ends after exactly n / limit + 1 requests and concatenates to the unpaged sorted list |
| Reconcile.Reconciles | internal/server/batches.go:646-673 | Any history of calls for one batch and anchor whose writes may each fail, then one full success, ends with the reminders of that call alone, up to the ids of new rows |
| Reconcile.SuccessReflectsAnchor | internal/queries/reminder_templates.sql.go:127-146 | After a full success every scheduled reminder of the anchor fires at the anchor's time plus offset_minutes times 60,000,000 microseconds, every matching template has a live reminder, each missing one got exactly one row with the template's title, description and kind for the batch and user, and no other row changed |
| Reconcile.RepeatingChangesNothing | internal/server/batches.go:646-655 | Repeating the call changes nothing |
| Reconcile.HistoryKeepsPartly | internal/queries/reminder_templates.sql.go:167-176 | No history of calls touches more than fire_at of scheduled rows of the anchor, or inserts two rows for a template |
| Reconcile.SettledOnce | internal/queries/reminder_templates.sql.go:127-146 | What a full success makes of a table is determined up to the ids of the new rows |
| ReminderSafety.OneLiveIff | internal/queries/reminders.sql.go:198-207 | A step keeps at most one live reminder per (template, batch) if and only if it is not a PATCH that revives a dead one beside a live one |
| ReminderSafety.RunsKeepOneLive | internal/queries/reminder_templates.sql.go:139-145 | So over every run without such a PATCH there is at most one |
| ReminderSafety.RevivalMakesTwins | internal/server/reminders.go:287-299 | A reachable run in which the status whitelist lets two live reminders arise |
| ReminderSafety.NotificationsBounded | internal/jobs/reminder_dispatcher.go:70-107 | A reminder's notifications never exceed 1 plus the PATCHes that put it back to scheduled |
| ReminderSafety.RunSpendsCharge | internal/queries/reminders.sql.go:33-44 | Each scheduled-to-fired transition is one claim by one tick and uses up the reminder's scheduling |
| ReminderSafety.TicksDrain | internal/queries/reminders.sql.go:33-44 | With no other writers, k due reminders are down to max(0, k - 100c) after c claims |
| ReminderSafety.DrainedIff | internal/jobs/reminder_dispatcher.go:36 | They are all fired exactly from ceil(k / 100) claims on |
| ReminderHandlers.Store.MaterializeTemplates | internal/server/batches.go:656-673 | Two best-effort writes, each of which may fail, with others acting in between; without a recipe nothing happens. The first moves exactly the scheduled rows of the anchor, the second inserts exactly the missing rows, both to the anchor's time plus the offset in minutes, each row spelled out; after both, every scheduled reminder of the anchor is on time unless it was touched in between; undisturbed, they are one attempt of Reconcile |
| ReminderHandlers.Store.SelectMissing | internal/queries/reminder_templates.sql.go:127-146 | One new id for each matching template without a live reminder, and for no other |
| ReminderHandlers.Store.HandleUpdateReminder | internal/server/reminders.go:240-315 | Exactly the statuses scheduled, snoozed, completed and dismissed are accepted, other users' reminders are not found, otherwise each given field is set and no other column changes |
| ReminderHandlers.Store.HandleDeleteReminder | internal/server/reminders.go:317-338 | Sets status cancelled on exactly the user's reminders that have not fired or completed |
| ReminderHandlers.Store.HandleCreateReminder | internal/server/reminders.go:134-204 | A scheduled reminder without a template, exactly for a batch that is the user's own when the handler asks; others may act before the insert |
| ReminderHandlers.Store.Work | internal/jobs/reminder_dispatcher.go:70-107 | A tick claims exactly the earliest scheduled reminders whose time has come, at most a hundred, and, amid other ticks, writes one notification per claim with the reminder's user, title, description and batch, unless the database refuses it |
| StageAdvance.Batch.MaybeAdvanceStage | internal/server/batches.go:702-722 | Pitch moves a batch read as planning to primary, rack one read as planning or primary to secondary, bottle one read before bottled to bottled at the event's time; nothing else changes |
| StageAdvance.Batch.RecordEvents | internal/server/batches.go:757-830 | Events recorded one after another fold as the next two lemmas say |
| StageAdvance.InTurnIsLatest | internal/server/batches.go:679-695 | Events recorded one after another leave the batch in the latest of its stage and theirs |
| StageAdvance.OrderDoesNotMatter | internal/server/batches.go:702-722 | So their order does not matter to the stage |
| StageAdvance.InTurnBottledAt | internal/server/batches.go:717-720 | The bottling time is that of the first bottling recorded, if the batch was not bottled before |
| StageAdvance.MovesBackIff | internal/server/batches.go:702-722 | With overlapping requests a write moves the batch back if and only if its stage lies strictly between the stage read and the stage there now |
| StageAdvance.NeverBehindTheStart | internal/server/batches.go:702-722 | However requests overlap, the batch is at no moment behind where it was when they began, if and only if no PATCH sets an earlier stage |
| StageAdvance.BottledAtComesWithBottling | internal/server/batches.go:717-720 | bottled_at changes only with a move to bottled, to that event's time |
| StageAdvance.OverlapLosesBottling | internal/server/batches.go:697-722 | Racking and bottling recorded at once can leave a bottled batch in secondary |
| StageAdvance.StageDropsIff | internal/server/batches.go:702-722 | In any run from no open requests, PATCHes included, the stage drops at a step if and only if that step is a PATCH to an earlier stage, or the write of a request whose event's stage lies strictly between the stage at its read and the stage at its write |
| StageAdvance.NoneStaleIsInTurn | internal/server/batches.go:757-830 | If every write finds the stage its request read, overlapping requests and PATCHes do what they would do one after another in the order of their writes |
| StageAdvance.NoneStaleEndsLatest | internal/server/batches.go:757-830 | Without a PATCH they then end in the latest stage signalled |
| StageAdvance.BottledAtWasBottled | internal/server/batches.go:717-720 | A bottled_at that a run leaves behind was given by a PATCH, or set by a bottling in it that moved the batch to bottled |
| Units.ConvertibleIff | internal/calc/units.go:143-162 | Units convert exactly when they are one string or known units of one measured family, whatever the amount |
| Units.ConvertibleIsAnEquivalence | internal/calc/units.go:143-162 | Convertibility is reflexive, symmetric and transitive |
| Units.ConversionsCompose | internal/calc/units.go:143-162 | Converting in two steps equals converting in one |
| Units.ConversionRoundTrip | internal/calc/units.go:143-162 | There and back is the identity |
| Units.ConversionIsLinear | internal/calc/units.go:143-162 | Conversion is additive and keeps amounts non-negative |
| Units.UnitTableHas | internal/calc/units.go:43-110 | The table has a spelling exactly if it stands for a unit, with the family and factor that `Grams` to `Pieces` give unit by unit |
| Units.MassUnits | internal/calc/units.go:44-60 | The table's masses agree with their definitions: a kilogram is 1000 g, a pound 16 oz, an ounce 28.349523125 g |
| Units.VolumeUnits | internal/calc/units.go:62-94 | and its volumes: a gallon is 231 cubic inches, four quarts of two pints of two cups of eight fluid ounces of two tablespoons of three teaspoons; metric ones decimal |
| Units.CountedNeverConvert | internal/calc/units.go:157-161 | Things that are counted convert into nothing but themselves |
| Units.NormalLetter | internal/calc/units.go:117-122 | Normalising drops a dot and makes a capital small |
| Units.NormalIgnoresBlanks | internal/calc/units.go:117-122 | and ignores white space around the unit |
| Units.NormalWords | internal/calc/units.go:117-122 | and runs words together |
| Text.TrimIsInner | internal/calc/units.go:118 | Trimming cuts white space off both ends and nothing else |
| InventoryMatch.GroupRows | internal/server/inventory.go:315-333 | The map-and-order loop yields ingredients in first-appearance order, each with its first row and exactly its inventory rows in order |
| InventoryMatch.BucketsPartition | internal/server/inventory.go:321-333 | No inventory row is lost or lands in two buckets |
| InventoryMatch.AppearsOnce | internal/server/inventory.go:321-333 | One view per distinct ingredient |
| InventoryMatch.AppearanceIsOrdered | internal/server/inventory.go:321-333 | Views come in the order of the ingredients' first rows |
| InventoryMatch.HeaderIsFirst | internal/server/inventory.go:321-333 | A view's name, amount and unit are those of the ingredient's first row |
| InventoryMatch.MatchesAreASubsequence | internal/server/inventory.go:321-333 | A bucket is the subsequence, at ascending indices, of exactly the ingredient's rows with an inventory item |
| InventoryMatch.AggregateInventoryMatch | internal/server/inventory.go:313-339 | Each view says of its ingredient what the group-by specification says |
| InventoryMatch.MatchRecipe | internal/server/inventory.go:263-297 | The same with the program's table of units |
| InventoryMatch.ClassifyMatch | internal/server/inventory.go:341-414 | Missing without rows, have without an amount to compare, a mismatch if no row converts; otherwise short by exactly the difference or have, on the total; the early exits agree with a judgement in which row order plays no part, and link to the first row, first unmeasured row or first comparable row |
| InventoryMatch.SumMatches | internal/server/inventory.go:366-382 | The summing loop finds the first unmeasured row, or the exact total |
| InventoryLaws.JoinOrderDoesNotMatter | internal/queries/inventory.sql.go:147-165 | However the join is ordered, each ingredient's status, total and shortfall are the same |
| InventoryLaws.RowsPermute | internal/server/inventory.go:366-382 | Permuting an ingredient's inventory rows changes nothing |
| InventoryLaws.SplittingARow | internal/server/inventory.go:373-381 | Splitting a measured row changes nothing |
| InventoryLaws.SingleRow | internal/server/inventory.go:373-413 | One measured row counts for exactly what it converts to |
| InventoryLaws.TotalsAdd | internal/server/inventory.go:373-381 | and rows together for the sum of what they count for apart |
| InventoryLaws.ReexpressingARow | internal/server/inventory.go:373-381 | Writing a row in another unit it converts to changes nothing |
| InventoryLaws.MoreIsNeverWorse | internal/server/inventory.go:384-413 | Another row never makes the status worse (missing < short < have) |
| InventoryLaws.ShortIff | internal/server/inventory.go:406-413 | Total plus shortfall is the required amount exactly when short |
| RealIp.Flatten | internal/server/realip.go:72-80 | The nested loops collect the non-empty trimmed entries of all header values in order |
| RealIp.EntryOf | internal/server/realip.go:74-79 | A part gives its text without the blanks around it, if any is left |
| RealIp.WalkXFF | internal/server/realip.go:71-93 | The rightmost entry that is not the address of a trusted proxy decides: its address if it has one, else the peer; the peer if all are |
| RealIp.DocumentedIff | internal/server/realip.go:60-93 | The client is the documented one if and only if the walk does not stop at an entry that does not parse; there the peer is named |
| RealIp.MalformedLast | internal/server/realip.go:82-88 | A malformed last value hides every entry before it, trusted or not |
| RealIp.MalformedHeader | internal/server/realip.go:82-88 | A concrete header for which the documented rule fails: "203.0.113.9" and then "_" |
| RealIp.ResolvesToOne | internal/server/realip.go:81-92 | That determines the client uniquely |
| RealIp.IsTrusted | internal/server/realip.go:95-102 | Trusted exactly when some prefix contains the address |
| RealIp.ContainsIff | internal/server/realip.go:95-102 | A prefix of b bits contains exactly the zoneless addresses of its family in its own block of 2 to the power of 32 (128) less b |
| RealIp.ClientAddr | internal/server/realip.go:33-46 | The header counts exactly when some trusted prefix contains the peer; then the client is as WalkXFF says |
| RealIp.PrependedHeaders | internal/server/realip.go:64-93 | Values put in front change nothing once the walk has stopped; if it passes every entry, they decide alone |
| RealIp.LinesJoin | internal/server/realip.go:68-80 | Joining header lines with a comma, with or without a space, never changes the chain |
| RealIp.SplitIsExact | internal/server/realip.go:74 | Splitting at commas loses nothing and leaves no comma |
| Calc.PlatoIncreases | internal/calc/calc.go:186-188 | The Plato cubic is strictly increasing |
| Calc.PlatoPoints | internal/calc/calc.go:186-188 | Four exact values fix it: -0.002 at 1.000, then 9.98193216, 19.30776128 and 28.04573632 at 1.040, 1.080 and 1.120 |
| Calc.PlatoSign | internal/calc/calc.go:186-188 | Its only sign change lies between 1.00000773, up to which it is negative, and 1.00000774, from which it is positive |
| Calc.PitchRateSign | internal/calc/calc.go:167-184 | The sign of a pitch rate depends on the gravity alone, not on volume or factor |
| Calc.PitchRateAroundRoot | internal/calc/calc.go:167-184 | Whatever the volume and factor, accepted gravities up to 1.00000773 give a negative pitch rate and those from 1.00000774 a positive one |
| Calc.PitchRatePositiveIff | internal/calc/calc.go:167-184 | For gravities of three decimals the pitch rate is positive exactly from 1.001 on and negative exactly up to 1.000, although accepted |
| Calc.PitchRateIs | internal/calc/calc.go:167-184 | Billions of cells are factor (0.75 if none is given) times litres times degrees Plato, ten for a gram of dry yeast, a hundred for a liquid pack; the refusals are exactly gravities outside 0.990..1.200 and volumes that are not positive |
| Calc.ABVIs | internal/calc/calc.go:63-86 | The two formulas, written without a division, and each refusal exactly |
| Calc.PredictedFGIs | internal/calc/calc.go:93-103 | The share of the points above water that ferments is the attenuation, and the ABV 131.25 per point; each refusal exactly |
| Calc.AlternativeRisesWithOG | internal/calc/calc.go:77-80 | Alternative ABV increases in OG |
| Calc.AlternativeFallsWithFG | internal/calc/calc.go:77-80 | and decreases in FG |
| Calc.AlternativeExceedsSimpleIff | internal/calc/calc.go:77-82 | Exactly when the alternative formula gives more than the simple one |
| Calc.AlternativeExceedsSimple | internal/calc/calc.go:58-64 | From OG 1.070 up it does for every valid FG |
| Calc.PredictionIsConsistent | internal/calc/calc.go:93-103 | Above water the prediction lies between water and the wort, gives back the attenuation, and its ABV is the simple formula's |
| Calc.PredictedABVSign | internal/calc/calc.go:93-103 | The predicted ABV is positive exactly for a wort above water and a positive attenuation |

## Left out

- RateLimit.Limiter.Allow: entries are values in the map, not shared pointers; the refill arithmetic of `golang.org/x/time/rate` is capped credit in nanoseconds, and its own clock reading is the call's `now`.
- ExportRequests.Anonymize: deleting the export rows and committing is one step, so READ COMMITTED overlap between the delete and the commit is not modelled; the satellite tables are not.
- ExportBackend.CopyToStore: the digest is an uninterpreted injective reading of the bytes; pipes, temporary files and archive formats are chunks of bytes.
- ExportRequests.HandleTriggerExport: an error of the check or of the insert, which changes nothing and is answered with 500.
- ExportRequests.HandleDownloadExport: a delivered body is what was read from the store; kernel buffering is not modelled.
- RecipeHandlers.HandleForkRecipe: statement errors, as for HandleUpdateRecipe, and the length limit on names.
- RecipeHandlers.HandleUpdateRecipe: statement errors, deadlocks and timeouts, which roll the transaction back (a rollback is a step of the model, but not of this handler); the wait for a row lock ends because other transactions end; `brew_type`, which no statement changes, is not a field.
- Recipe deletion, template deletion and batch deletion, comments, likes and follows.
- Pagination.ListPage: the cursor is the exact (key, id) pair; JSON, base64 and RFC 3339 encoding are not modelled.
- ReminderHandlers.Store.MaterializeTemplates: two overlapping executions of one INSERT ... SELECT statement, which could both see a template as missing, are not modelled.
- ReminderHandlers.Store.Work: push, Apprise and e-mail delivery, quiet hours and the per-user caches.
- ReminderHandlers.Store.HandleUpdateReminder: length limits and RFC 3339 parsing of request fields.
- Units.ConvertibleIff: `normalizeUnit` trims and lower-cases ASCII only.
- InventoryMatch.ClassifyMatch: NUMERIC to float64 and float rounding; amounts are exact reals.
- RealIp.WalkXFF: `netip.ParseAddr` is a parameter, so the results hold for any parser; white space is ASCII; host and port splitting are not modelled.
- Calc.ABV: NaN, infinities and float rounding; the honey and sugar weights, which are one formula each.
- HTTP decoding, authentication, sessions, mail, S3 and file system calls, pg_dump, River scheduling and migrations.
