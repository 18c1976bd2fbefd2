# TG2Cloud: verified models of the task store, the listener inbox and the protocols around them

TG2Cloud moves Telegram attachments to a WebDAV remote. Its state lives in one SQLite database: transfer tasks with a
quota ledger and upload slots, and an inbox of plans that a polling listener fills and an administrator approves. This
project models that database and the procedures that work on it, and proves what they keep over whole runs.

Three groups of modules:

* **Task store.** `States`, `TaskStore` (rows, triggers, operations as functions on a store), `Totals` (how every sum
  over the tasks moves with one operation), `DailyQuota`, `SpaceSafety`, `RestartRecovery` (Recovery.dfy),
  `StagingNames`, `RemoteNames`, and `TaskDatabase`: the class whose methods change the tables step by step, each proved
  equal to its function. `Outcomes` says what those functions answer and leave behind, read off rows and columns.
  A *run* is any sequence of operations, each at an instant. Workers may take any legal state change; what a result
  needs of them beyond that are some of four named guards (`TaskStore.KeepsMode`, `StreamsByMode`, `ReservesByReserve`,
  `StaysCancelled`), asked for only where they are used. `SlotOverstep` is a run against the slot limit.
* **Inbox and listener.** `Inbox` (plans, journal, sources), `Retention` (the batched garbage collector), `Savepoints`
  (nested transactions on SQLite's savepoint stack), `Polling` (the listener as a state machine: one step per stretch
  between two awaits, with everything else of the program interleaved as `Disturbed`), `Receive` (what becomes of a
  message), `CursorSafety`, `InterruptedAlbum`, `IntakeOnce`, `PlanLifecycle`, `Rotation`, and `PlansDatabase`: the class
  with the loops of `Plans.expire`.
* **Incremental algorithms and fault protocols.** `Utf8`, `Json`, `JsonPrint` (printing and reading back),
  `StagingScan` and `StagingReader` (the streaming listing reader), `PrintedListing`, `RateGate` (shared rate limits), `Backup` (stop, copy, restart), `CaptionMask` (UTF-16 masking), `FolderNames` and
  `SourceFolders` (folder allocation).

`Text` holds code points and numerals. Check everything with `dafny verify dfyconfig.toml`.

## Where the code does not do what one would expect

Each of these is proved with a concrete input and the exact condition under which the code does meet the expectation.

* **Admission day.** `Plans.submit` admits a task at the plan's own creation time. The daily limit survives exactly when
  that instant lies on the current day (`DailyQuota.AdmissionDayDecides`); `DailyQuota.UsedUpAdmitsAgain` gives the run
  from an empty database in which a member exceeds it.
* **Slots of repeated work.** A worker does not ask for a slot when it makes a task active again: after a failed rename
  (src/tg2cloud/transfer/download.py:79-85, then 49) the download starts over from `downloaded`, and an upload that comes
  back from `cleanup_pending` (src/tg2cloud/transfer/upload.py:189-191, then 257) was admitted without one
  (src/tg2cloud/persistence/sqlite.py:131-134). One operation keeps a member within `max_active` exactly when it is not such
  a step of a task that holds no slot while none is free (`SpaceSafety.Oversteps`, `SpaceSafety.SlotStep`,
  `SpaceSafety.SlotsHold`); `SlotOverstep.RepeatedDownloadOversteps` is a run from an empty database that ends with two
  active tasks under a limit of one.
* **Interrupted albums.** `Listener.poll` keeps the first 100 messages of a page and the album members after them. If
  another message stands between those members, the cursor passes it with nothing stored. The batch cut keeps a prefix
  of the page exactly when the album after the batch is contiguous (`CursorSafety.KeptIsPrefix`); `InterruptedAlbum.InterruptedPageIsPassed`
  is a run from the start in which it happens. No other undecided message is ever passed.
* **Forgotten folders.** `save_source` without `target_base`, the default, drops the folder of a source that is added
  again. A step keeps every bound folder exactly when it is not such a re-add, which can be told from the call and the
  table beforehand (`SourceFolders.StepKeepsFolders`). `SourceFolders.ReaddLosesFolder` is the run from the empty table, for
  every source that can be saved with a folder at all. The listener itself always passes a base.
* **Spaces.** `str.lstrip` removes more than the four spaces of JSON, so the listing reader accepts some texts that are
  not JSON. Of what the reader's grammar admits, exactly the texts whose gaps hold JSON spaces only are JSON
  (`StagingReader.ReaderAndJson`, `StagingReader.NoBreakSpacePasses`).
* **Long entries.** The limit on an unfinished entry is looked at after each read. Whether an entry close to the limit
  passes depends on where the reads end; `StagingReader.ReadsDoNotMatter` gives the exact condition, and outside a
  margin of one read the answer is the same for every cut.
* **Feedback retention** needs no assumption on timestamps: the collector orders by id, which is enough for the batches
  to add up to one sweep.

## Model

| member | source | states |
|---|---|---|
| `TaskDatabase.TaskDB.CreateTask` | src/tg2cloud/persistence/sqlite.py:313-402 | a repeated message gives its task, a refused quota, directory or identity changes no table, otherwise one queued row over its reserved bytes and no other row moves |
| `TaskDatabase.TaskDB.Reserve` | src/tg2cloud/persistence/sqlite.py:555-655 | every branch of reserve with its wait reason, the missing bytes included; a local reservation leaves the local files within the budget; a refusal moves no state, ledger or slot |
| `TaskDatabase.TaskDB.AdmitUpload` | src/tg2cloud/persistence/sqlite.py:124-138 | allowed exactly when a slot is held or free; the slot is taken and nothing else changes |
| `TaskDatabase.TaskDB.UpdateState` | src/tg2cloud/persistence/migrations.py:58-91 | a write of the state column with both triggers: charge, released mark, slot, event |
| `TaskDatabase.TaskDB.Transition` | src/tg2cloud/persistence/sqlite.py:692-734 | unknown id, illegal edge or done: only edges of the table are taken; outside the active states the slot goes, and exactly a cancelled task without a charge gives its bytes back |
| `TaskDatabase.TaskDB.Update` | src/tg2cloud/persistence/sqlite.py:657-690 | a write of progress fields that leaves the state column and every trigger alone |
| `TaskDatabase.TaskDB.Requeue` | src/tg2cloud/persistence/sqlite.py:181-241 | accepted exactly under the guard; the task then waits without a slot over reserved or charged bytes, with its old row on record and its paths retained; a refusal changes nothing |
| `TaskDatabase.TaskDB.DeferListenerDownload` | src/tg2cloud/persistence/sqlite.py:243-288 | deferred exactly under the guards; then queued for one more attempt, not before the wait is over, without a slot |
| `TaskDatabase.TaskDB.RequestStream` | src/tg2cloud/persistence/sqlite.py:736-774 | the four answers; an updated task is queued in stream mode without a slot, any other answer changes nothing |
| `TaskDatabase.TaskDB.Confirm` | src/tg2cloud/persistence/sqlite.py:776-815 | missing, already, invalid or confirmed; only a completed task becomes confirmed |
| `TaskDatabase.TaskDB.SetWaitReason` | src/tg2cloud/persistence/sqlite.py:497-515 | the wait text changes only in the given states, only to another text, and without a trigger |
| `TaskDatabase.TaskDB.Recover` | src/tg2cloud/persistence/sqlite.py:843-962 | the loop over the selected rows leaves store, directory and tally of the recovery function; every interrupted row is queued, waits over its file or has failed, as its files say, and no other row moves |
| `TaskDatabase.TaskDB.RemoteClaimed` | src/tg2cloud/persistence/sqlite.py:145-150 | claimed exactly if retained or the final path of another task that is not cancelled |
| `TaskDatabase.TaskDB.StagingName` | src/tg2cloud/persistence/sqlite.py:156-160 | the printed name carries the latest recovery of the task |
| `Outcomes.CreateDecides` | src/tg2cloud/persistence/sqlite.py:313-402 | which answer create_task gives, with duplicates, quota, directory and identity looked at in this order, and every column of the new row and its ledger row |
| `Outcomes.AdmitsMeans` | src/tg2cloud/persistence/quotas.py:45-56 | admission by the bytes charged and reserved, summed over the ledger, and by the number of waiting tasks |
| `Outcomes.ReserveDecides` | src/tg2cloud/persistence/sqlite.py:555-655 | when a due task waits and for what, and when it starts as a file or as a stream, by the number of tasks at work, the bytes of kept files and the growth still to come |
| `Outcomes.ReserveWrites` | src/tg2cloud/persistence/sqlite.py:555-655 | a task that starts is reserved in its mode with nothing left of a failure; one that waits differs in its wait text only |
| `Outcomes.AdmitDecides` | src/tg2cloud/persistence/sqlite.py:124-138 | a slot is taken exactly by a downloaded or waiting task of a member with fewer than max_active tasks at work; clean-up needs none |
| `Outcomes.RequeueDecides` | src/tg2cloud/persistence/sqlite.py:181-241 | exactly when a requeue is accepted, every column of the requeued row, the paths retained, the recovery record and the ledger row |
| `Outcomes.TransitionDecides` | src/tg2cloud/persistence/sqlite.py:692-734 | exactly the edges of the table are taken; each column has its new or old value, and the ledger row is charged, released or kept by what the row then says |
| `Outcomes.ProgressDecides` | src/tg2cloud/persistence/sqlite.py:657-690 | an update sets the columns it names and no other, and no other table |
| `Outcomes.DeferDecides` | src/tg2cloud/persistence/sqlite.py:243-288 | exactly when a rate-limited listener download waits once more, and every column it then has |
| `Outcomes.StreamDecides` | src/tg2cloud/persistence/sqlite.py:736-774 | the four answers by state, cancel request and local path, and the row queued as a stream |
| `Outcomes.ConfirmDecides` | src/tg2cloud/persistence/sqlite.py:776-815 | the four answers, and the confirmed row |
| `States.EndsOfLife` | src/tg2cloud/domain/states.py:40-78 | from which states a task can be cancelled, queued again, completed, confirmed and reserved |
| `States.CanStillFinish` | src/tg2cloud/domain/states.py:40-78 | every task that is not confirmed has a way along the edges to be completed and confirmed |
| `Totals.ApplyIsEffect` | src/tg2cloud/persistence/sqlite.py:124-962 | every operation comes down to at most one row written, touched, inserted or given a slot |
| `Totals.ApplyWellFormed` | src/tg2cloud/persistence/migrations.py:58-66 | ids, ledger rows, owners, sizes and slots stay aligned through every operation |
| `Totals.TotalAfterEffect` | src/tg2cloud/persistence/quotas.py:27-43 | any sum over the tasks moves by the change at the one task an operation works on |
| `DailyQuota.LedgerStep` | src/tg2cloud/persistence/migrations.py:58-63 | whatever workers do, a ledger row stays exactly one of reserved, charged, released, and a charge never changes |
| `DailyQuota.StepStaysWithin` | src/tg2cloud/persistence/quotas.py:27-56 | one operation keeps charged today plus reserved within a limited member's daily bytes, if workers leave cancelled tasks cancelled |
| `DailyQuota.DayPasses` | src/tg2cloud/persistence/quotas.py:15-20 | so does the passing of time, over a change of day |
| `DailyQuota.DailyQuotaHolds` | src/tg2cloud/persistence/quotas.py:27-56 | from the empty database, in every state of every run and at every later instant, the daily limit holds |
| `DailyQuota.ChargedOnce` | src/tg2cloud/persistence/migrations.py:59-63 | over any run at all, whatever its clock, workers, admissions and limits: every row stays exactly one of reserved, charged and released, and keeps its one charge |
| `DailyQuota.AdmissionDayDecides` | src/tg2cloud/persistence/plans.py:568-586 | admitting at an instant other than now is safe, for all healthy stores and for all that runs begun at any time have reached by now, if and only if it lies on the same day |
| `DailyQuota.UsedUpAdmitsAgain` | src/tg2cloud/persistence/sqlite.py:328-344 | a run from an empty database uses a member up; judged on another day the next task is admitted and the limit exceeded |
| `SpaceSafety.BudgetStep` | src/tg2cloud/persistence/sqlite.py:541-653 | one operation keeps the local budget or grows the use by exactly the size of a re-adopted file |
| `SpaceSafety.BudgetHolds` | src/tg2cloud/persistence/sqlite.py:596-653 | over every run the local files fit the budget plus what was re-adopted |
| `SpaceSafety.SlotStep` | src/tg2cloud/persistence/quotas.py:59-69 | one operation under a fixed max_active keeps a member within it if and only if it does not make a task active that holds no slot while none is free |
| `SpaceSafety.SlotsHold` | src/tg2cloud/persistence/quotas.py:59-69 | a member's active or slot-holding tasks exceed max_active in no state of a run if and only if no step of the run does that |
| `SlotOverstep.RepeatedDownloadOversteps` | src/tg2cloud/transfer/download.py:46-85 | a run from an empty database in which a repeated download gives a member with a limit of one a second active task |
| `SpaceSafety.HeadroomHolds` | src/tg2cloud/persistence/sqlite.py:563-653 | over every interleaving of operations, downloads and deletions, a deletion before its row is rewritten included, free space minus all remaining growth stays above the minimum |
| `RestartRecovery.RowsByThemselves` | src/tg2cloud/persistence/sqlite.py:853-962 | although rows are visited one after another over a changing directory, each row ends as if it were alone |
| `RestartRecovery.RecoverOutcome` | src/tg2cloud/persistence/sqlite.py:843-962 | same tasks; exactly the chosen rows in one of ten states, without a cancel request and without anything to review, are rewritten, and which of queued, waiting or failed they become follows from mode and files; exactly the partial files of rows that start over are gone; the tally counts the rows by where they ended |
| `RestartRecovery.RecoverIsIdempotent` | src/tg2cloud/persistence/sqlite.py:843-962 | a second run, of the table or of one task, changes timestamps and wait text only |
| `RestartRecovery.FinalIsNoPart` | src/tg2cloud/persistence/sqlite.py:896-930 | no task's final path is another task's partial path |
| `StagingNames.MatchRecoversTask` | src/tg2cloud/domain/models.py:6 | STAGING_PATTERN gives back the task id exactly for positive ids of at most 18 digits and clean non-empty tails |
| `StagingNames.TasksNeverShare` | src/tg2cloud/persistence/sqlite.py:156-160 | staging names of different tasks never coincide |
| `StagingNames.AttemptsNeverShare` | src/tg2cloud/persistence/sqlite.py:156-160 | under one file name two attempts print alike if and only if they are the same |
| `StagingNames.AttemptsMeet` | src/tg2cloud/persistence/sqlite.py:156-160 | across two file names two attempts would print alike exactly if the earlier is the first and its name begins with the later one's mark |
| `RemoteNames.FreshPathStaysClaimed` | src/tg2cloud/persistence/sqlite.py:145-150 | every remote path a task held before a fresh-path requeue is claimed against every task in all later states |
| `RemoteNames.FinalsStayApart` | src/tg2cloud/persistence/sqlite.py:145-150 | over every run in which final paths are chosen past remote_claimed, no two tasks that are not cancelled are to end at the same path |
| `RemoteNames.NameStaysOverRun` | src/tg2cloud/persistence/sqlite.py:657-734 | no run changes the file name of a task |
| `RemoteNames.OwnNameTellsAttempt` | src/tg2cloud/persistence/sqlite.py:156-160 | between two instants of a run a task's own staging name is the same if and only if it has had no recovery meanwhile |
| `RemoteNames.AttemptsStayApart` | src/tg2cloud/persistence/sqlite.py:213-235 | after a requeue neither the task nor any other ever uploads to the staging name the task had before |
| `Savepoints.ScopesAreAtomic` | src/tg2cloud/persistence/plans.py:59-72 | on SQLite's savepoint stack, with one name for all levels, each scope keeps all or nothing and leaves the stack as it was |
| `Savepoints.FailedBatchChangesNothing` | src/tg2cloud/listening/management.py:101-120 | a batch in which some operation fails leaves every table as it was |
| `Inbox.RegisterSound` | src/tg2cloud/persistence/plans.py:366-485 | create never gives an owner a 201st pending plan and touches existing plans only by expiry |
| `Inbox.EditSound` | src/tg2cloud/persistence/plans.py:510-542 | edits and ignores move plans only forward |
| `Inbox.SubmitSound` | src/tg2cloud/persistence/plans.py:544-596 | submission links a task of the task table exactly to submitted plans |
| `Inbox.SubmitLinks` | src/tg2cloud/persistence/plans.py:568-596 | a sent plan is linked to a task of its message or file that is in the table; a created one is queued under the plan's owner, message, name and size over a ledger row with its bytes; nothing else moves |
| `Inbox.SubmitDecides` | src/tg2cloud/persistence/plans.py:544-596 | exactly when a submission is sent, and when it creates a task |
| `Inbox.EditDecides` | src/tg2cloud/persistence/plans.py:510-542 | exactly when an edit is done, and what it leaves |
| `Inbox.ChangeDecides` | src/tg2cloud/persistence/plans.py:250-323 | exactly when a change is done, the source it leaves, and which plans a deletion ignores |
| `Inbox.ChangeSound` | src/tg2cloud/persistence/plans.py:250-323 | changing or deleting a source moves its plans only forward |
| `Inbox.ResubmitReturnsLink` | src/tg2cloud/persistence/plans.py:544-566 | submitting again, with any revision, returns the one linked task and changes nothing |
| `PlansDatabase.Plans.Create` | src/tg2cloud/persistence/plans.py:366-485 | the method's new tables are those of Register |
| `PlansDatabase.Plans.Edit` | src/tg2cloud/persistence/plans.py:510-542 | the method's new tables are those of Edit |
| `PlansDatabase.Plans.Submit` | src/tg2cloud/persistence/plans.py:544-596 | the method's new tables are those of Submit; a sent plan is linked to a task in the table, created for it if there was none, and any other answer changes nothing |
| `PlansDatabase.Plans.ChangeSource` | src/tg2cloud/persistence/plans.py:250-323 | the method's new tables are those of ChangeSource |
| `PlansDatabase.Plans.Expire` | src/tg2cloud/persistence/plans.py:334-364 | four limited statements in order; the result says whether one used its whole limit |
| `Retention.BatchKeepsSweep` | src/tg2cloud/persistence/plans.py:334-364 | a batch does not change what the unlimited sweep would leave |
| `Retention.BacklogShrinks` | src/tg2cloud/persistence/plans.py:334-364 | each call that reports a backlog works some of it off |
| `Retention.BacklogEnds` | src/tg2cloud/persistence/plans.py:334-364 | there are never more calls in a row that report a backlog than there are rows to handle |
| `Retention.BatchesAreOneSweep` | src/tg2cloud/persistence/plans.py:334-364 | repeating expire until it returns False ends, in exactly the state of one unlimited sweep |
| `Retention.PendingIsSpared` | src/tg2cloud/persistence/plans.py:334-364 | pending plans and their journal rows stay, and no journal row is left pointing to a missing plan |
| `Retention.SweepLeaves` | src/tg2cloud/persistence/plans.py:334-364 | what the unlimited sweep leaves, row by row: which plans expire, and exactly which journal rows, corrections and plans go |
| `CursorSafety.KeptIsPrefix` | src/tg2cloud/listening/service.py:658-664 | the batch cut leaves no message behind exactly when the album after it is contiguous |
| `CursorSafety.InterruptedPageLosesMessage` | src/tg2cloud/listening/service.py:658-664 | a page of 102 whose album is interrupted loses the interrupting message |
| `InterruptedAlbum.InterruptedPageIsPassed` | src/tg2cloud/listening/service.py:658-692 | a run from the start whose next step moves the cursor past that message with nothing stored |
| `CursorSafety.DecideStores` | src/tg2cloud/listening/service.py:564-621 | receive stores a journal row or a plan unless the message is stored already or the poll is no longer current |
| `Receive.MatchedIsPlanned` | src/tg2cloud/listening/service.py:564-610 | a wanted message that matches gets, if there is room, a pending plan under its own journal row, and without confirmation the plan is submitted over a task that exists or is created if the store admits it |
| `Receive.UnmatchedIsJournalled` | src/tg2cloud/listening/service.py:588-594 | a wanted message that does not match gets a journal row, and nothing else changes |
| `Receive.UnwantedIsLeft` | src/tg2cloud/listening/service.py:571-586 | a message of a changed, disabled or deleted source or account, below the cursor or decided already changes nothing |
| `Receive.LimitsHoldBack` | src/tg2cloud/listening/service.py:587-597 | at a full journal, queue or inbox the poll fails with nothing stored |
| `Receive.TurnHandles` | src/tg2cloud/listening/service.py:667-676 | what one turn of the loop does by the age of the message and the state of source, account and client |
| `Receive.SettleMovesOn` | src/tg2cloud/listening/service.py:676-692 | after each verdict the cursor stands at the message and the next one is at hand, or the poll has ended with what was stored |
| `Receive.TakenIn` | src/tg2cloud/listening/service.py:564-692 | a poll that comes to a matching message and finds room leaves its plan and journal row and moves the cursor to it |
| `Receive.PollBegins` | src/tg2cloud/listening/service.py:632-657 | how a poll gets to its page, when it marks a gap, and that a finished one sets polled_at |
| `Receive.CandidateIsPlanned` | src/tg2cloud/listening/management.py:229-273 | a confirmed candidate of the history gets its plan and journal row if there is room |
| `CursorSafety.StepDecides` | src/tg2cloud/listening/service.py:623-692 | each step that moves a cursor moves it forward to the message at hand, and every kept message it passes is stored then |
| `CursorSafety.ContiguousPassesAll` | src/tg2cloud/listening/service.py:658-692 | where the album after the batch is contiguous, every fetched message the step passes is stored |
| `CursorSafety.NoUndecidedMessagePassed` | src/tg2cloud/listening/service.py:564-692 | this holds at every step of every run from the start; within one source revision no cursor decreases |
| `IntakeOnce.FirstPlan` | src/tg2cloud/listening/service.py:667-676 | a message young enough to be taken in has had no plan, whatever retention removed |
| `IntakeOnce.StepSound` | src/tg2cloud/listening/management.py:229-273 | every step, history backfill included, keeps plan records longer than the age limits of intake |
| `IntakeOnce.NoSecondPlan` | src/tg2cloud/persistence/plans.py:380-397 | from every sound state, no run gives a message of an account a second plan |
| `IntakeOnce.IntakeAtMostOnce` | src/tg2cloud/listening/service.py:564-676 | nor does any run from the start |
| `PlanLifecycle.StepMoves` | src/tg2cloud/persistence/plans.py:510-596 | every step moves every plan only forward and keeps the inbox invariants |
| `PlanLifecycle.LifecycleHolds` | src/tg2cloud/persistence/plans.py:366-596 | over every run: at most 200 pending plans an owner, tasks of the task table exactly on submitted plans, no plan ever returns to pending |
| `PlanLifecycle.ResubmitsAfterRun` | src/tg2cloud/persistence/plans.py:544-566 | after any run, and with any revision, submitting a submitted plan returns its one task and changes nothing |
| `PlanLifecycle.LifecycleFromStart` | src/tg2cloud/persistence/plans.py:366-596 | the inbox invariants hold in every state a run from the start reaches |
| `Rotation.PollSources` | src/tg2cloud/listening/service.py:766-799 | a round polls the eligible sources in rotated order, all of them up to the first after which the budget is spent, and then stands at the last one polled |
| `Rotation.LeftOutForBudget` | src/tg2cloud/listening/service.py:775-799 | an eligible source is left out of a round only if the budget was spent after another one |
| `Rotation.StopBringsCloser` | src/tg2cloud/listening/service.py:776-777 | a round that leaves out a waiting source has stopped before it; the next round has the stopped one no longer ahead of it, and only newly added ones besides |
| `Rotation.FairRotation` | src/tg2cloud/listening/service.py:766-799 | over rounds that each read the sources afresh: with n sources at first, one that stays eligible is polled within n rounds and one for each source that joins |
| `Utf8.FrontIsEncoding` | src/tg2cloud/storage/rclone.py:450-457 | the decoder accepts exactly the encodings of section 3 of RFC 3629 |
| `Utf8.DecodeInParts` | src/tg2cloud/storage/rclone.py:450-457 | decoding a cut stream, carrying the waiting bytes over, is decoding it whole |
| `Utf8.DecodedIsEncoded` | src/tg2cloud/storage/rclone.py:450-457 | decoding undoes encoding |
| `Json.DecodeAppend` | src/tg2cloud/storage/rclone.py:471-474 | a complete value stays the same when more text arrives, except a number that may go on |
| `Json.OtherStaysOther` | src/tg2cloud/storage/rclone.py:471-476 | a text that begins with a complete value other than an object never comes to begin with one |
| `JsonPrint.PrintedIsRead` | src/tg2cloud/storage/rclone.py:471-474 | decoding undoes printing, for nested objects, arrays, escaped strings and words, whatever text follows |
| `StagingReader.DrainInParts` | src/tg2cloud/storage/rclone.py:458-492 | draining the buffer now and later is draining it at once |
| `StagingReader.DrainIsArray` | src/tg2cloud/storage/rclone.py:458-492 | the phase machine accepts and counts what the array grammar lists |
| `StagingReader.LoadsIsWholeArray` | src/tg2cloud/storage/rclone.py:451 | the array grammar with JSON's spaces is the decoder's own reading of one array |
| `StagingReader.ReaderAndJson` | src/tg2cloud/storage/rclone.py:458-492 | a JSON array is counted as that array; what else the reader admits is exactly what has other spaces in its gaps |
| `StagingReader.NoBreakSpacePasses` | src/tg2cloud/storage/rclone.py:459 | a no-break space before the array is accepted |
| `StagingReader.ReadsDoNotMatter` | src/tg2cloud/storage/rclone.py:453-499 | for every cut into reads: the result of the whole output, or refusal exactly when some read ends with too much left over |
| `StagingReader.SameForEveryCut` | src/tg2cloud/storage/rclone.py:453-499 | two cuts agree if no beginning of the output leaves more than the entry limit over |
| `StagingReader.TooLongForEveryCut` | src/tg2cloud/storage/rclone.py:493-494 | an entry beyond the limit by more than a read is refused for every cut |
| `StagingReader.CutCollectsBeginning` | src/tg2cloud/storage/rclone.py:475-494 | where another cut of the same output is accepted, a refused scan has collected a beginning of its objects |
| `StagingReader.ListingIsRead` | src/tg2cloud/storage/rclone.py:453-499 | a listing that decodes to a JSON array is counted as that array however it is cut |
| `StagingReader.DrainBuffer` | src/tg2cloud/storage/rclone.py:458-492 | the inner loop ends in the drained state |
| `StagingReader.ReadStaging` | src/tg2cloud/storage/rclone.py:448-499 | the whole loop, end of output and exit code included: complete exactly for a good listing, and the scan then holds exactly its staging files; what a refused scan has collected stays |
| `StagingReader.ReadingLists` | src/tg2cloud/storage/rclone.py:448-499 | a reading is accepted exactly for a good listing, reads within the limit and exit code 0, and the scan then holds the listing |
| `StagingScan.ScanLists` | src/tg2cloud/storage/rclone.py:475-486 | accepted exactly if every item is an object with a name and both limits hold; then the scan counts the items and holds, in order, the files under staging names with their task ids |
| `StagingScan.ListedPositions` | src/tg2cloud/storage/rclone.py:479-484 | the listed items are exactly those that are staging files by their last Name, IsDir and Path, in order |
| `StagingNames.MatchIsStagingName` | src/tg2cloud/domain/models.py:6 | the pattern matches exactly the prefix, a positive number of at most eighteen digits, a dash and a clean tail |
| `PrintedListing.PrintedListingIsRead` | src/tg2cloud/storage/rclone.py:448-499 | a listing that is printed, encoded and cut into reads is read back: accepted exactly if its items are acceptable, with exactly its staging files |
| `RateGate.GateHolds` | src/tg2cloud/listening/transport.py:59-89 | for any number of interleaved calls: at most 5 waits, 60 seconds and 6 requests each, no request before an announced wait is over, no gate removed before its own deadline |
| `RateGate.EventMoves` | src/tg2cloud/listening/transport.py:63-89 | what every event does to its call and to the gates: which gate shuts until when, which opens, and whether the call returns, raises, sleeps or sends |
| `RateGate.TurnDecides` | src/tg2cloud/listening/transport.py:64-74 | a call sends at an open gate and sleeps the least whole seconds at a shut one, unless its scope, its waits or its seconds are used up |
| `RateGate.CallsEnd` | src/tg2cloud/listening/transport.py:63-89 | every await brings a call closer to its end, whatever the others do |
| `RateGate.FloodGuards` | src/tg2cloud/listening/transport.py:82-86 | a flood reply never shortens a wait and guards the new one |
| `RateGate.ListeningClient.NextTurn` | src/tg2cloud/listening/transport.py:64-74 | the top of the loop takes the turn of the interleaving: validate, raise, sleep or send |
| `RateGate.ListeningClient.Clear` | src/tg2cloud/listening/transport.py:75-76 | after a sleep only the gate that was waited for goes, never a newer one |
| `RateGate.ListeningClient.Record` | src/tg2cloud/listening/transport.py:82-86 | a flood reply sets the gate of the interleaving and keeps every announced wait guarded |
| `RateGate.ListeningClient.Request` | src/tg2cloud/listening/transport.py:59-89 | the loop ends; it returns only what a request brought back and raises only for a failed reply, an ended scope or a used-up bound; it keeps all bounds and sends only when no announced wait is open |
| `Backup.Host.HaltAll` | src/tg2cloud/deployment/backup.py:186-196 | Bot first; only running services are stopped; both are down when it succeeds |
| `Backup.Host.CopyFiles` | src/tg2cloud/deployment/backup.py:204-221 | every file is copied, each with both services down |
| `Backup.Host.Restore` | src/tg2cloud/deployment/backup.py:226-245 | gateway first, Bot never beside a failed gateway; a closing record only over the initial flags, and a call for review when a service could not be brought back |
| `Backup.Host.Create` | src/tg2cloud/deployment/backup.py:146-246 | whatever fails or is interrupted: copies only with both services down, starts only what ran, restores if the restoration meets no fault, refuses over an open journal, and completes if nothing fails, its journal then holding every stage in order; a failed backup whose services are back says so |
| `Backup.ServicesKeptOrBlocked` | src/tg2cloud/deployment/backup.py:158-166 | over any number of backups the services run as at first, or the next backup is refused |
| `CaptionMask.Mask` | src/tg2cloud/domain/naming.py:271-311 | in the text and in every quote passed on, each UTF-16 unit under a hiding entity is a space and every other unit is the caption's, length kept |
| `CaptionMask.HiddenInAnyOrder` | src/tg2cloud/domain/naming.py:283-304 | what is hidden does not depend on the order of the entities |
| `FolderNames.FolderName` | src/tg2cloud/domain/source_directories.py:26-64 | both loops give the longest cluster prefix that fits, stripped, with fallback and suffix |
| `FolderNames.ClustersCover` | src/tg2cloud/domain/source_directories.py:40-54 | the clusters are the text, each one character with its marks, but for marks in front of the first character |
| `FolderNames.CutIsLongest` | src/tg2cloud/domain/source_directories.py:55-63 | what is kept fits and one cluster more would not |
| `FolderNames.NameWithinLimits` | src/tg2cloud/domain/source_directories.py:10-64 | a name is within 60 columns and 112 bytes exactly when something of the title is left or the fallback fits beside the suffix |
| `FolderNames.NumberedFits` | src/tg2cloud/persistence/plans.py:210-213 | every candidate is within the limits while its numerals have at most fifty digits together |
| `FolderNames.CandidatesDiffer` | src/tg2cloud/persistence/plans.py:210-213 | numbered candidates of one source differ, even ignoring case |
| `FolderNames.SearchFinds` | src/tg2cloud/persistence/plans.py:203-214 | the search ends at a free name among the first candidates, as many as there are names in use and two |
| `FolderNames.FindFree` | src/tg2cloud/persistence/plans.py:203-214 | the loop ends, and ends at the first free candidate |
| `SourceFolders.StepKeepsFolders` | src/tg2cloud/persistence/plans.py:166-284 | every operation keeps the folders apart, and keeps every bound folder exactly when it does not bring back, without a save root, a deleted source that has one |
| `SourceFolders.FoldersHold` | src/tg2cloud/persistence/plans.py:166-284 | over all adds, deletes, re-adds and mode switches: no two sources share a folder ignoring case, all fit, and bound folders never change |
| `SourceFolders.FoldersStayApart` | src/tg2cloud/persistence/plans.py:201-215 | folders stay apart even over runs that forget |
| `SourceFolders.ReaddLosesFolder` | src/tg2cloud/persistence/plans.py:178-193 | from the empty table, whichever source is saved with a folder has none once it was deleted and added again without a save root |
| `SourceFolders.LetterIsSaved` | src/tg2cloud/persistence/plans.py:166-215 | a source titled with one letter is saved with a folder of that name, so there are such sources |
| `SourceFolders.Sources.BindFolder` | src/tg2cloud/persistence/plans.py:201-215 | the first free name is bound, or the configuration is refused |
| `SourceFolders.Sources.SaveSource` | src/tg2cloud/persistence/plans.py:166-199 | the new table of save_source, or no change |
| `SourceFolders.Sources.ChangeSource` | src/tg2cloud/persistence/plans.py:250-323 | the new table of change_source, or no change |

## Left out

- Clock: each operation reads the clock once; times are integers in the store and reals in the rate gate; wall clock and monotonic clock are one.
- Time zones: a day is a pair of functions that give its start and end (`Calendar`); calendar rules are not modelled.
- Authorization checks, actors' rights and the private messages of errors.
- The columns, menus, views, editor drafts, notifications and texts of the user interface.
- TaskDatabase.TaskDB.Update: the state column, which the fields of update admit as an unrestricted write, is left out; only progress and plain fields are modelled.
- TaskDatabase.TaskDB.CreateTask: whether the target directory is accepted is one flag of the request; the directory's own rules are not modelled.
- `confirm_completed` as one batch statement: it is repeated `Confirm`.
- SQLite's choice of a new row id is a parameter that must be fresh; which of several equal rows a lookup finds is left open.
- File paths are compared as written and not normalised; a deletion may be refused by the operating system.
- Rule matching, naming heuristics, title scoring and promotional clean-up: whether a message matches is an input.
- Album captions and the content of an item beyond the fields that intake uses.
- Polling: the listener and the programs around it are a state machine over values, one step per stretch between two awaits; the Python object's caches (`_verified_until`, `wait_records`) appear as inputs of a step.
- Json.Decode: Python's limits on integer digits and on recursion depth are not modelled; values other than objects, arrays, strings and true are not told apart.
- StagingReader.ReadStaging: the 40-second timeout around it is not modelled.
- Utf8.Decode: the replacing decoder that caption_candidate applies after masking is not modelled.
- RateGate.ListeningClient.Await: time passes by at least the sleep; other calls appear through its contract in the method and explicitly in the interleaving.
- Backup.Host.Command: a container is changed by this procedure's commands only, and a command's effect does not come after it has ended.
- Backup: the choice of files, archive format, disk space and container identity checks appear as steps that may fail.
- FolderNames.Unicode: character tables, case folding, normalisation and the path check are functions with the few facts about digits, dash and the two fallback characters that the proofs use; Python's cleaning of a title is one of these functions.
- SourceFolders: fields of a configuration without a bearing on folders are one value with one check; source revisions history and cursors are in `Inbox`.
- Download backoff, adaptive window, notification cooldowns, destination probing, templates and progress parsing: smaller pieces that would only add easier members.
- Installer, upgrade, proxy, preflight and manager code.
