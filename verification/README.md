# Verification of the SMS gateway

A Dafny model of the gateway that takes SMS from a modem, keeps them in a
file-backed queue beside a deduplication table, and delivers them to Telegram.
`dafny verify dfyconfig.toml` checks all of it.

The gateway keeps its state in two stores that are changed in separate steps:
four directories of item files, changed by renames and replacing writes, and a
table of seen messages. The process may die between any two steps. The model
therefore describes every queue operation as a list of durable steps, and a
crash as the effect of a prefix of that list.

| files | content |
|---|---|
| `Durable.dfy`, `QueueSpec.dfy` | the disk, its atomic steps, and the steps of each queue operation |
| `StateDir.dfy`, `DedupStore.dfy`, `Queue.dfy` | the classes that work on the disk, proved to take exactly those steps in that order |
| `CrashSafety.dfy`, `Recovery.dfy`, `OperationSafety.dfy`, `Retention.dfy`, `ClaimScan.dfy` | the two-store invariant at every crash point, startup, each operation, retention, the claim scan |
| `Ledger.dfy`, `GatewaySystem.dfy`, `SystemSafety.dfy`, `GatewayTheorems.dfy`, `BoundAttained.dfy` | the whole gateway as a state machine with crashes, its invariant, and what follows for every run |
| `Redelivery.dfy` | messages that come twice, over whole runs |
| `Clock.dfy`, `History.dfy`, `Worker.dfy`, `CleanupScheduler.dfy`, `Relay.dfy` | the delivery worker, the retention pass and the relay as they drive the queue; each of their steps is an event of the state machine |
| `ModemClient.dfy`, `Watchdog.dfy` | the modem client's subscriptions and reset wait, the modem watchdog |
| `TelegramText.dfy`, `TelegramClient.dfy` | the text of a message and the sending of it |

The worker, the relay and the scheduler are classes that own no second account
of what may happen: each carries the history of the state machine along and can
take a step only where the machine can. The events of one call are therefore a
run (`GatewayHistory.GainIsRun`), and what is proved of every run holds of them.

Some promises of the code hold only under a condition. Each has a concrete
counterexample or an exact condition beside it:

- A cleanup reads the clock separately for the expired rows and for the purge.
  Files and rows agree afterwards exactly when no row of a valid file expires
  in between (`Retention.CleanupCanStrandAFile`, `Retention.CleanupAgreesIff`).
  A cleanup that meets this condition is an event of the state machine.
- The public `find_modem` replaces the modem path without looking at the
  subscriptions. Wherever the modem may turn up, they stay safe exactly when a
  re-subscription is due or no callback is confirmed before the call
  (`ModemManager.FindModemIsSafeIff`); a client that watches and then calls it
  can lose its callback (`ModemManager.FindModemStrandsACallback`). The next
  `connect` repairs it.
- An item can be sent more than once, once per restart. The bound is proved and
  attained (`GatewayTheorems.DuplicateBound`, `BoundAttained.BoundIsAttained`).
  It counts replies recognised as accepted: when the reply is lost after the
  server took the message, the retry in the same epoch delivers it again.
- The bound is one per accepted item. Under one window a message with its own
  timestamp becomes one item until that item is cleaned away or its file rots
  (`Redelivery.AcceptedOnce`). A message without timestamp takes its key from the
  moment it is read, so that one whose deletion failed can become a second item,
  exactly when its key came out different and unknown
  (`Redelivery.UntimedAcceptedAgainIff`).

Two details differ from what the code's names suggest. After an invalid
transition the frozen cooldown replaces the normal one even when it is the
shorter of the two. After a reset the path that ends the wait is a new one, but
a further path change while subscribing on it can leave the client on a third.

## Model

| member | source | states |
|---|---|---|
| `GatewayTheorems.CrashRecovery` | src/sms_gateway_v2/queue/queue.py:44-355 | Any operation of any run may stop after any of its durable steps, leaving the disk of exactly those steps; the next startup leaves nothing in `processing`, every name in one directory, every digest in one readable file, and each file's row with its directory's status, and restores the whole two-store invariant. |
| `GatewayTheorems.StartupRecovery` | src/sms_gateway_v2/relay/relay.py:86-93 | The same after a death outside an operation, or inside startup itself, any number of times. |
| `GatewayTheorems.DuplicateBound` | src/sms_gateway_v2/worker/worker.py:66-166 | In every reachable state an item was accepted by the server at most once per epoch (1 + restarts in all), counting replies recognised as accepted; a file in `sent` was sent at least once, and a finished item is in no other directory. |
| `BoundAttained.BoundIsAttained` | src/sms_gateway_v2/worker/worker.py:84-155 | The bound is exact: for every n there is a run with n epochs in which one item is sent n times, by dying between the send and the rename. |
| `GatewayTheorems.NoLoss` | src/sms_gateway_v2/queue/queue.py:60-109 | An accepted item is in exactly one of the four directories until a cleanup removes it, and in none afterwards, across crashes and rotten files. |
| `GatewayTheorems.OnlyCleanupRemoves` | src/sms_gateway_v2/queue/queue.py:357-407 | The only event that makes an accepted item disappear is a cleanup, completed or cut off, and from the directory it cleans. |
| `GatewayTheorems.DeletedIsCovered` | src/sms_gateway_v2/relay/relay.py:313-427 | A message deleted from the modem is covered by an accepted item that answers, under the window in force at its enqueue, to the key it was enqueued under; or it was given up after at least as many empty reads of it, counted since its retries began, as the limit says. |
| `GatewayTheorems.RetryBudget` | src/sms_gateway_v2/worker/worker.py:182-209 | At most one retry per schedule entry is ever scheduled for an item, its file agrees on the number of attempts, and no network attempt happens before the time its last retry set. |
| `GatewayTheorems.RetryWaitsLongEnough` | src/sms_gateway_v2/worker/worker.py:182-211 | Counted from the failure on, a scheduled retry waits at least the scheduled delay and at least what Telegram asked for. |
| `GatewayTheorems.PermanentStaysFailed` | src/sms_gateway_v2/queue/queue.py:330-336 | An item that lies in `failed` flagged permanent is in no other directory at any later time of any run. |
| `GatewayTheorems.BookkeepingNeverFails` | src/sms_gateway_v2/worker/worker.py:69-153 | In a running epoch the item the worker holds is in `processing` with its own row, nothing else is there, and requeue never stops early; so none of the calls on it raises. |
| `GatewayTheorems.NextKeepsInv` | src/sms_gateway_v2/queue/queue.py:44-407 | Every event keeps the system invariant: ticks, startup, crashes in or between operations, every operation, sends, refusals, rereads, deletions, messages given up, rotting files. |
| `GatewayTheorems.ReachableInv` | src/sms_gateway_v2/queue/queue.py:44-407 | The invariant holds in every state some run from an empty state directory leads to. |
| `GatewayHistory.TroubleIsPossible` | src/sms_gateway_v2/queue/queue.py:121-176 | In any state of any run the process may die, and any file may come to hold what does not parse or bears another id; the promises above hold all the same. |
| `Redelivery.RowsAreForgottenOnlyThere` | src/sms_gateway_v2/queue/queue.py:121-176 | A row disappears only in a cleanup in which it is expired, or in a claim, completed or cut off, that takes an invalid file out of `pending` whose name, or whose otherwise absent payload id, the row bears. |
| `Redelivery.AcceptedIffNew` | src/sms_gateway_v2/queue/queue.py:60-109 | A message is accepted if and only if the digest of its number, text, instant and window has no row and no readable pending file has it, as stored or as of today; what is stored is the message itself with that digest. |
| `Redelivery.UnlikeAllIsAccepted` | src/sms_gateway_v2/queue/queue.py:60-109 | In any reachable state a message whose digest differs from those of all accepted items, as stored and as of today, is accepted: nothing but an equal digest makes a duplicate. |
| `Redelivery.StoredKeyIsDigest` | src/sms_gateway_v2/queue/queue.py:60-109 | In any reachable state the stored key of an accepted item is the digest of its own number, text and instant under some window. |
| `Redelivery.AcceptedAgainMeansLost` | src/sms_gateway_v2/queue/queue.py:60-109 | In any reachable state a key that an accepted item answers to is taken for a new message only if the item was cleaned away, its file is not valid any more, or it was stored under another window's key and has left `pending`. |
| `Redelivery.AcceptedOnce` | src/sms_gateway_v2/queue/queue.py:60-109 | Over any run, restarts and crashes included, a message with its own timestamp that is enqueued again under the same window is not accepted a second time unless the item that stands for it is lost in that sense. |
| `Redelivery.UntimedAcceptedAgainIff` | src/sms_gateway_v2/queue/queue.py:60-109 | A message without timestamp, read again after it was accepted, is accepted again if and only if its digest came out different and its key was not known before either. |
| `SystemSafety.EveryOpPoint` | src/sms_gateway_v2/queue/queue.py:60-407 | Every crash point of every operation is a sound disk that agrees with the history of the run. |
| `SystemSafety.OpIsSafe` | src/sms_gateway_v2/queue/queue.py:60-407 | Every operation of a running gateway takes only permitted steps and ends settled, whatever else is going on. |
| `SystemSafety.EnqueueCovers` | src/sms_gateway_v2/queue/queue.py:60-109 | Whatever enqueue answers, an accepted item answers to the key of the message under the window in force. |
| `SystemSafety.DoKeepsInv` | src/sms_gateway_v2/queue/queue.py:60-407 | A completed operation keeps the invariant, including what the worker holds. |
| `SystemSafety.DieKeepsInv` | src/sms_gateway_v2/queue/queue.py:60-407 | A crash inside an operation keeps what a stopped gateway guarantees. |
| `CrashSafety.AllowedKeepsSound` | src/sms_gateway_v2/queue/paths.py:19-58 | What one rename, replacing write, unlink or statement must respect so that files and rows stay consistent at every crash point. |
| `CrashSafety.EveryCrashPointIsSound` | src/sms_gateway_v2/queue/queue.py:60-355 | Every prefix of a run of permitted steps leaves a consistent disk. |
| `CrashSafety.MoveEffect` | src/sms_gateway_v2/queue/paths.py:33-40 | A rename takes one file along, leaves every other slot alone, and keeps each id in one directory. |
| `Recovery.BootRestores` | src/sms_gateway_v2/queue/queue.py:44-53 | From any consistent disk, initialize followed by recover_processing leaves the full invariant with `processing` empty, and each point in between is a consistent disk again. |
| `Recovery.InitializeAgrees` | src/sms_gateway_v2/queue/queue.py:489-557 | After initialize every valid pending, sent and failed file has a row with the status of its directory. |
| `Recovery.InitializeOwnRow` | src/sms_gateway_v2/queue/dedup.py:91-116 | The row of such a file is created when missing and restamped when its status differs; a row that agreed keeps its timestamp. |
| `Recovery.InitializeOtherRow` | src/sms_gateway_v2/queue/dedup.py:91-116 | Rows that belong to no such file are untouched. |
| `Recovery.InitializeIsIdempotent` | src/sms_gateway_v2/queue/queue.py:489-557 | A second initialize, at any later time, changes nothing. |
| `OperationSafety.EnqueueSafe` | src/sms_gateway_v2/queue/queue.py:60-109 | Enqueue with a fresh id keeps the invariant at every step and leaves `processing` and the held item alone. |
| `OperationSafety.EnqueueKnows` | src/sms_gateway_v2/queue/queue.py:60-109 | After enqueue the key has a row or a valid pending file answers to it; only an accepted message adds a file. |
| `OperationSafety.PendingDuplicateMeaning` | src/sms_gateway_v2/queue/queue.py:449-476 | The duplicate scan finds a valid pending item that answers to the key if and only if there is one. |
| `OperationSafety.QuarantineSafe` | src/sms_gateway_v2/queue/queue.py:121-176 | Moving a corrupt or misnamed file to `failed` and deleting rows by its name and its payload id takes no row from any valid file. |
| `OperationSafety.QuarantineForgets` | src/sms_gateway_v2/queue/queue.py:121-176 | A quarantine forgets exactly the rows of the file name and, when no file has it, of the payload id, so that the message can be enqueued again. |
| `OperationSafety.ClaimSafe` | src/sms_gateway_v2/queue/queue.py:111-204 | A claim keeps the invariant at every step and leaves the claimed item in `processing` with its own PROCESSING row. |
| `OperationSafety.MarkSentSafe` | src/sms_gateway_v2/queue/queue.py:206-216 | mark_sent on a held item keeps the invariant and moves exactly its file. |
| `OperationSafety.MarkFailedSafe` | src/sms_gateway_v2/queue/queue.py:218-234 | The same for mark_failed. |
| `OperationSafety.MoveBackSafe` | src/sms_gateway_v2/queue/queue.py:236-253 | The same for move_back_to_pending. |
| `OperationSafety.UpdateAttemptSafe` | src/sms_gateway_v2/queue/queue.py:255-275 | The same for update_attempt, after which the updated item is the one held. |
| `ClaimScan.ClaimIsLeast` | src/sms_gateway_v2/queue/queue.py:111-204 | claim_next returns the valid pending item of least id that is not skipped, and None only when every valid pending item is skipped. |
| `ClaimScan.ClaimEffect` | src/sms_gateway_v2/queue/queue.py:121-176 | Besides the one rename a claim only moves files that are not valid from `pending` to `failed`. |
| `ClaimScan.ClaimThenBack` | src/sms_gateway_v2/worker/worker.py:68-78 | Claiming an item and putting it back leaves every valid file where and as it was. |
| `Retention.RequeueSafe` | src/sms_gateway_v2/queue/queue.py:301-355 | On a settled disk requeue_failed moves exactly the young, not permanent items, never stops early, leaves a held item alone, and keeps the invariant. |
| `Retention.CleanupExact` | src/sms_gateway_v2/queue/queue.py:357-407 | A cleanup removes exactly the files of expired rows and the old files no row knows, and exactly the expired rows. |
| `Retention.CleanupExactAt` | src/sms_gateway_v2/queue/dedup.py:127-160 | The same with its three readings of the clock kept apart. |
| `Retention.CleanupSafe` | src/sms_gateway_v2/queue/queue.py:357-407 | With one reading, a valid file of the directory survives exactly when its row does, and every other directory keeps its files. |
| `Retention.CleanupSafeAt` | src/sms_gateway_v2/queue/queue.py:357-407 | The same with three readings, and the invariant at every step, as long as no row of a valid file expires in between. |
| `Retention.CleanedAwayMeansExpired` | src/sms_gateway_v2/queue/queue.py:578-599 | A valid file is removed if and only if its own row is expired. |
| `Retention.CleanupAgreesIff` | src/sms_gateway_v2/queue/dedup.py:127-160 | With separate readings, files and rows agree afterwards if and only if no row of a valid file expires between the first and the last. |
| `Retention.ValidFilesStayIff` | src/sms_gateway_v2/queue/dedup.py:127-160 | After a cleanup of a settled disk a valid file of the directory is there if and only if its own row was no more than the given days old at the first reading. |
| `Retention.CleansInDays` | src/sms_gateway_v2/queue/queue.py:357-407 | What the steps of a cleanup remove, in days of 24 hours counted back from its readings. |
| `Retention.RequeuesInDays` | src/sms_gateway_v2/queue/queue.py:301-355 | What the steps of a requeue move, in days of 24 hours counted back from now. |
| `Retention.CleanupCanStrandAFile` | src/sms_gateway_v2/queue/dedup.py:149-160 | A concrete disk on which the second reading purges a row whose file stays behind. |
| `Retention.CleanupSparesSalvageable` | src/sms_gateway_v2/relay/cleanup_scheduler.py:36-49 | With equal retention cleanup_failed removes no item that requeue_failed would return to `pending` at its first reading, whatever the later readings are. |
| `Retention.SchedulerPass` | src/sms_gateway_v2/relay/cleanup_scheduler.py:36-49 | For three readings per cleanup: every item that was salvageable at the start is in `pending` after the pass, no file the last cleanup removed was salvageable, and the disk is settled, unless a row expires between the readings of a cleanup. |
| `Bookkeeping.EveryCrashPointIsOnRecord` | src/sms_gateway_v2/queue/queue.py:60-355 | Every crash point of the steps that add no item agrees with the history of accepted items, sends, retries and removals. |
| `FileQueue.Queue.Open` | src/sms_gateway_v2/queue/queue.py:35-42 | A dedup window below one minute is rejected, and nothing else. |
| `FileQueue.Queue.Initialize` | src/sms_gateway_v2/queue/queue.py:44-53 | Takes exactly the reconciliation steps, once. |
| `FileQueue.Queue.Enqueue` | src/sms_gateway_v2/queue/queue.py:60-109 | Takes exactly the specified steps and answers an item or None accordingly. |
| `FileQueue.Queue.FindPendingDuplicate` | src/sms_gateway_v2/queue/queue.py:449-476 | Returns the first valid pending item that answers to the key. |
| `FileQueue.Queue.ClaimNext` | src/sms_gateway_v2/queue/queue.py:111-204 | Takes exactly the specified steps and returns the first valid pending item not skipped; the repair of a missing row cannot raise. |
| `FileQueue.Queue.MarkSent` | src/sms_gateway_v2/queue/queue.py:206-216 | Takes exactly the specified steps and raises if and only if the file or the row is missing. |
| `FileQueue.Queue.MarkFailed` | src/sms_gateway_v2/queue/queue.py:218-234 | The same, with the flag written before the rename. |
| `FileQueue.Queue.MoveBackToPending` | src/sms_gateway_v2/queue/queue.py:236-253 | One rename, or ItemNotFound and no change. |
| `FileQueue.Queue.UpdateAttempt` | src/sms_gateway_v2/queue/queue.py:255-275 | One replacing write with the attempt counted, or ItemNotFound and no change. |
| `FileQueue.Queue.RecoverProcessing` | src/sms_gateway_v2/queue/queue.py:277-299 | One rename per file of `processing`, counted. |
| `FileQueue.Queue.RequeueFailed` | src/sms_gateway_v2/queue/queue.py:301-355 | Takes exactly the specified steps; a missing row ends the pass after the rename. Where files and rows agree it moves exactly the readable, not permanent files first seen no more than the given days of 24 hours ago. |
| `FileQueue.Queue.CleanupSent` | src/sms_gateway_v2/queue/queue.py:357-381 | Takes exactly the specified steps for the three clock readings, counts the files removed, and rejects a negative age. SENT rows stay if and only if their stamp is no more than the given days of 24 hours old at the last reading; exactly the files of rows too old at the first reading, and files too old at the second that no row knows, go. |
| `FileQueue.Queue.CleanupFailed` | src/sms_gateway_v2/queue/queue.py:383-407 | The same for `failed` and FAILED rows. |
| `Dedup.DedupStore.RecordNew` | src/sms_gateway_v2/queue/dedup.py:56-75 | Inserts a PENDING row, or reports a key that is there and changes nothing. |
| `Dedup.DedupStore.UpdateStatus` | src/sms_gateway_v2/queue/dedup.py:77-89 | Restamps the row of a key, or reports that there is none. |
| `Dedup.DedupStore.ReconcileStatus` | src/sms_gateway_v2/queue/dedup.py:91-116 | Inserts the row or restamps it only when the status differs. |
| `Dedup.DedupStore.ItemIdsOlderThan` | src/sms_gateway_v2/queue/dedup.py:127-140 | The ids of the expired rows, in order. |
| `Dedup.DedupStore.PurgeOlderThan` | src/sms_gateway_v2/queue/dedup.py:149-160 | Deletes exactly the expired rows. |
| `StateDirectory.StateDir.AtomicMove` | src/sms_gateway_v2/queue/paths.py:33-40 | A rename is one durable step; a missing source changes nothing and is reported. |
| `StateDirectory.StateDir.ListItemsSorted` | src/sms_gateway_v2/queue/paths.py:61-62 | Every name of a directory once, in order. |
| `DeliveryWorking.DeliveryWorker.ProcessOnePendingItem` | src/sms_gateway_v2/worker/worker.py:66-166 | Without work every valid pending item must still wait and only invalid files moved. With work the least item that need not wait was handled: a blank text fails for good, an unforeseen error fails it for now, and otherwise the reply that ended the sending decides by its status and body. HTTP 200 with ok leads to `sent`; no answer, 429, 500 and more, or an unreadable 200 back to `pending`, due after the longer of the scheduled delay and the one asked for, as long as the schedule has an entry; everything else to `failed` for good. Every other valid file is untouched, and every pass is a run of the state machine. |
| `DeliveryWorking.DeliveryWorker.NextDueItem` | src/sms_gateway_v2/worker/worker.py:67-78 | The claim and skip loop terminates and finds the least valid pending item that need not wait, or that there is none. |
| `DeliveryWorking.DeliveryWorker.Attempt` | src/sms_gateway_v2/worker/worker.py:80-151 | A blank text is never sent; otherwise the status and body of the reply that ended the sending decide the outcome, and one attempt is recorded with the time the item had to wait for. |
| `DeliveryWorking.DeliveryWorker.Dispose` | src/sms_gateway_v2/worker/worker.py:88-153 | Success goes to `sent`, a recoverable failure back to `pending` or past the schedule to `failed`, anything else to `failed`, permanent unless unforeseen. |
| `DeliveryWorking.DeliveryWorker.HandleRecoverableDeliveryFailure` | src/sms_gateway_v2/worker/worker.py:182-220 | The next attempt waits for the longer of schedule and retry_after, or the item fails for good. |
| `Scheduling.CleanupScheduler.RunCleanup` | src/sms_gateway_v2/relay/cleanup_scheduler.py:36-51 | Requeue, then `sent`, then `failed`, with three readings for each cleanup, stopping at the first error; each of the three does, in days, what it promises on the disk the one before left. Every young item of `failed` is saved even when a cleanup is refused. The pass is a run of the state machine unless a row expires between the readings of a cleanup. |
| `Relaying.SmsRelay.ProcessSms` | src/sms_gateway_v2/relay/relay.py:405-427 | When the deletion is asked for, the disk as it is at that moment knows the message; without a queue nothing is deleted; at most one deletion is asked for, of this path; a normal return without a counted failure means it was; nothing known is forgotten. |
| `Relaying.SmsRelay.Delete` | src/sms_gateway_v2/relay/relay.py:368-427 | A deletion is asked for only with a reason that holds at that moment, and is an event of the state machine; a refused one is counted and raised on request only. |
| `Relaying.SmsRelay.ProcessSmsPath` | src/sms_gateway_v2/relay/relay.py:266-287 | One read of the message: without text it goes to a retry task, gone or outgoing it is left alone, complete it is stored and its deletion asked for, any other failure to read is raised. |
| `Relaying.SmsRelay.OnNewSms` | src/sms_gateway_v2/relay/relay.py:177-187 | The same for a signal: read once, dealt with by the same cases, and a failure is not raised. |
| `Relaying.SmsRelay.ScheduleTextRetry` | src/sms_gateway_v2/relay/relay.py:289-296 | A task is started if and only if none is pending for the path. |
| `Relaying.SmsRelay.RetryAttempt` | src/sms_gateway_v2/relay/relay.py:324-372 | Exactly one read; an empty one and nothing else is counted; a deletion means a complete message that is stored or the last empty read; the retry ends at the limit or at any other reading; no other task is touched. |
| `Relaying.SmsRelay.AfterEmptyRead` | src/sms_gateway_v2/relay/relay.py:346-372 | After an empty read the message is given up exactly when the count reaches the limit. |
| `Relaying.SmsRelay.HandleTextRetryDone` | src/sms_gateway_v2/relay/relay.py:298-311 | A finished task removes its own entry and no other. |
| `Relaying.SmsRelay.CancelPendingTextRetries` | src/sms_gateway_v2/relay/relay.py:393-403 | Every task is done and no entry is left. |
| `Relaying.SmsRelay.Start` | src/sms_gateway_v2/relay/relay.py:78-117 | A start succeeds with a settled queue, an empty `processing`, a confirmed subscription, and every message the modem listed read once and stored, handed to a retry task, gone or outgoing; a failure anywhere leaves the relay stopped with all invariants. |
| `Relaying.SmsRelay.RestoreQueue` | src/sms_gateway_v2/relay/relay.py:86-93 | Initialize, then recover: a startup of the state machine, which leaves nothing in `processing`. |
| `Relaying.SmsRelay.Stop` | src/sms_gateway_v2/relay/relay.py:119-175 | A relay that was running ends stopped, with its tasks done, the bus let go of and the queue closed. |
| `Relaying.SmsRelay.DrainExistingMessages` | src/sms_gateway_v2/relay/relay.py:189-227 | When it returns normally, the messages were listed once, every listed one was read once, and each is stored, handed to a retry task, gone or outgoing. |
| `Relaying.SmsRelay.ReadExistingMessages` | src/sms_gateway_v2/relay/relay.py:189-216 | Lists once and reads every listed message before anything is deleted. |
| `Relaying.EnqueueRemembers` | src/sms_gateway_v2/queue/queue.py:60-109 | Enqueue forgets no message that was known. |
| `ModemManager.ModemManagerClient.Session` | src/sms_gateway_v2/modem/client.py:196-573 | After any sequence of public calls other than find_modem, with any D-Bus failures and bus losses, every confirmed callback is subscribed on the known path or a re-subscription is due, and keys and handlers have equal domains. |
| `ModemManager.ModemManagerClient.WatchAdded` | src/sms_gateway_v2/modem/client.py:569-573 | A normal return confirms the callback, a failure confirms none. |
| `ModemManager.ModemManagerClient.SubscribeAddedWatch` | src/sms_gateway_v2/modem/client.py:613-632 | Subscribes one callback on the path the modem turns out to have. |
| `ModemManager.ModemManagerClient.SubscribeMissingAddedWatchers` | src/sms_gateway_v2/modem/client.py:661-670 | On success the flag says whether anything is still missing, which is nothing unless the modem had to be looked for again; on failure it stays set. |
| `ModemManager.ModemManagerClient.ResubscribeAddedWatchers` | src/sms_gateway_v2/modem/client.py:653-655 | The same after letting go of every subscription. |
| `ModemManager.ModemManagerClient.PrepareForPathChange` | src/sms_gateway_v2/modem/client.py:657-659 | Lets go of every subscription and sets the flag if there are callbacks. |
| `ModemManager.ModemManagerClient.GetProxyObject` | src/sms_gateway_v2/modem/client.py:1002-1025 | Either nothing changed and the path is the one asked for, or the subscriptions were dropped and the modem was looked for again; the latter exactly when the known modem path turns out to be an unknown object. |
| `ModemManager.ModemManagerClient.GetMessagingInterface` | src/sms_gateway_v2/modem/client.py:903-953 | With re-subscription, either nothing changed or everything was re-checked. When the object of the known path, or its interface, is gone, the modem is looked for again. |
| `ModemManager.ModemManagerClient.GetModemInterfaces` | src/sms_gateway_v2/modem/client.py:827-886 | Keeps subscriptions safe across one or two path changes. |
| `ModemManager.ModemManagerClient.EnsureModemPath` | src/sms_gateway_v2/modem/client.py:802-809 | Returns the known path, or everything was re-checked. |
| `ModemManager.ModemManagerClient.Connect` | src/sms_gateway_v2/modem/client.py:196-223 | A normal return leaves the bus connected and subscriptions safe even if they were not before; a failure makes nothing worse. |
| `ModemManager.ModemManagerClient.Disconnect` | src/sms_gateway_v2/modem/client.py:225-235 | Forgets path, callbacks and subscriptions. |
| `ModemManager.ModemManagerClient.FindModem` | src/sms_gateway_v2/modem/client.py:237-254 | Takes the first path of the listing; finding the known path again keeps subscriptions safe, and another one exactly when the flag is set or everything is subscribed there already. |
| `ModemManager.FindModemIsSafeIff` | src/sms_gateway_v2/modem/client.py:237-245 | Wherever the modem may be found, find_modem keeps subscriptions safe if and only if, before the call, a re-subscription is due or no callback is confirmed. |
| `ModemManager.FindModemStrandsACallback` | src/sms_gateway_v2/modem/client.py:237-245 | A client that connects, watches and then calls find_modem on a bus without failures ends with a confirmed callback on the old path and the flag unset. |
| `ModemManager.RecheckedIsSafe` | src/sms_gateway_v2/modem/client.py:670-755 | When the flag equals what the check computes, subscriptions are safe. |
| `ModemManager.ModemManagerClient.Reset` | src/sms_gateway_v2/modem/client.py:407-425 | Asks for at most one reset, exactly one on a normal return, lets go of the modem path, and keeps subscriptions safe whether the modem comes back or not. |
| `ModemManager.ModemManagerClient.WaitForResetReappear` | src/sms_gateway_v2/modem/client.py:677-745 | Ends after a number of polls bounded by the timeout, each asking for the modems at least once and twice more per callback at most, with a pause between two polls that is not meant to last beyond the deadline. A chosen path was listed, and one that equals the reset one was missing from a listing before that. As long as no call on the bus fails, the first path offered is taken and fully subscribed on, and the time is up only if none ever was. |
| `ModemManager.ModemManagerClient.PollAfterReset` | src/sms_gateway_v2/modem/client.py:685-734 | One poll takes only the path its listing offers: another one than the reset one, or that one once it was missing. It does take it unless a call on the bus fails. An error that is not the client's own ends the wait, and no other does. |
| `ModemManager.ModemManagerClient.ListMessages` | src/sms_gateway_v2/modem/client.py:442-476 | Lists once, asks about every listed message once, returns exactly the inbound ones, and keeps subscriptions safe through the path changes it may meet. |
| `ModemManager.ModemManagerClient.ReadMessage` | src/sms_gateway_v2/modem/client.py:484-554 | Adds one reading of this path to the log and touches no subscription. An object that is gone is reported as missing, an outgoing message as skipped; a complete one has a text. |
| `ModemManager.ModemManagerClient.DeleteMessage` | src/sms_gateway_v2/modem/client.py:556-567 | Asks for at most one deletion, and a normal return means it asked. |
| `ModemWatch.ModemWatchdog.PollOnce` | src/sms_gateway_v2/relay/watchdog.py:66-120 | Counters are what the poll history says after every poll, where denied, searching and unknown are the bad states; the watchdog acts exactly when a threshold was earned, enables in the states disabled, locked and failed and resets otherwise, starts counting anew even when the cooldown holds it back; a failed poll changes nothing, and an escaping exception leaves the counters where they were. |
| `ModemWatch.ModemWatchdog.Run` | src/sms_gateway_v2/relay/watchdog.py:57-64 | Over any sequence of polls, also when an exception ends it: each poll is on record; with a positive threshold a poll that shows recent signal and a state other than denied, searching or unknown never acts; one that ends bad_state_minutes of those states, or the threshold of recent zero readings, with nothing done in between, does. |
| `ModemWatch.HistoryDecides` | src/sms_gateway_v2/relay/watchdog.py:90-120 | The same for any history that the thresholds decided. |
| `ModemWatch.ModemWatchdog.Tally` | src/sms_gateway_v2/relay/watchdog.py:90-110 | The zero counter and the start of the bad stretch, and the decision they lead to. |
| `ModemWatch.ModemWatchdog.Act` | src/sms_gateway_v2/relay/watchdog.py:111-120 | Enable for recoverable modem states, reset otherwise; counters cleared unless the exception of the call escapes. |
| `ModemWatch.ModemWatchdog.TryEnable` | src/sms_gateway_v2/relay/watchdog.py:136-187 | An attempt is deferred exactly while the cooldown of the last one runs, the frozen one after an error that speaks of an invalid transition. |
| `ModemWatch.SignalAfter` | src/sms_gateway_v2/relay/watchdog.py:90-106 | The counter decides the zero-signal trigger: enough recent zero readings since the last signal or trigger. |
| `ModemWatch.StretchDecides` | src/sms_gateway_v2/relay/watchdog.py:98-109 | The start of the stretch decides the bad-state trigger: an unbroken, untriggered bad stretch of the full length. |
| `ModemWatch.CutsAreUnique` | src/sms_gateway_v2/relay/watchdog.py:83-103 | There is one point in the history from which the counters count. |
| `ModemWatch.TriggersAreEarnedAnew` | src/sms_gateway_v2/relay/watchdog.py:106-120 | Between two triggers lies a full new threshold of its own. |
| `ModemWatch.EnablesKeepTheirDistance` | src/sms_gateway_v2/relay/watchdog.py:136-187 | Any two enable attempts are at least the cooldown of the first apart, frozen or not, whichever setting is larger. |
| `TelegramText.FromSmsRoundTrip` | src/sms_gateway_v2/telegram/models.py:22-86 | A message is built exactly when the SMS is not blank; parsed back it shows number, newline and text when that fits, and exactly 4096 characters otherwise, so the length check never rejects it. |
| `TelegramText.FromSmsMarkup` | src/sms_gateway_v2/telegram/models.py:22-72 | The message closes every element it opens, and exactly the number is bold, or its first 4092 characters and three dots when it is too long on its own. |
| `TelegramText.RenderedIsVisible` | src/sms_gateway_v2/telegram/models.py:79-95 | Reading with the markup shows exactly the visible text whose length is checked. |
| `TelegramText.EscapeRoundTrip` | src/sms_gateway_v2/telegram/models.py:28-37 | Parsing undoes escaping, whatever follows. |
| `TelegramText.EscapedIsHarmless` | src/sms_gateway_v2/telegram/models.py:37-37 | No angle bracket and no quote is left in an escaped text. |
| `TelegramText.BlankMeansWhiteSpace` | src/sms_gateway_v2/telegram/models.py:24-24 | A text is refused as blank exactly when it consists of the white space characters that Python strips. |
| `TelegramText.TruncatedTextShows` | src/sms_gateway_v2/telegram/models.py:62-72 | Truncation of the text splits no entity. |
| `TelegramText.TruncatedNumberShows` | src/sms_gateway_v2/telegram/models.py:62-72 | Truncation of an overlong number splits no entity. |
| `TelegramText.HtmlTextLengthParser.Feed` | src/sms_gateway_v2/telegram/models.py:79-95 | The parser counts exactly the visible characters. |
| `TelegramText.TelegramTextLength` | src/sms_gateway_v2/telegram/models.py:79-86 | The length is that of the visible text under HTML parsing and of the raw text otherwise. |
| `TelegramSending.TelegramClient.SendMessage` | src/sms_gateway_v2/telegram/client.py:69-127 | Returns after the first reply that cannot be tried again or the last allowed one, and says what that reply says. Between two attempts there is one pause: as long as a 429 asks, a second if it names no positive time, and otherwise 1, 2, 4, 8, 16, then 30 seconds. An unopened client sends nothing. |
| `TelegramSending.TelegramClient.Create` | src/sms_gateway_v2/telegram/client.py:27-50 | Empty credentials and a retry count below one are rejected. |
| `TelegramSending.SentIffSomeAttemptAccepted` | src/sms_gateway_v2/telegram/client.py:69-220 | A call returns normally if and only if some attempt within the limit got HTTP 200 with ok and every earlier one met a failure that may pass. |
| `TelegramSending.PausesRespectRateLimit` | src/sms_gateway_v2/telegram/client.py:222-280 | Over a whole call, a 429 whose body asks for a positive time is followed by exactly that pause, and as the last reply it hands that time to the caller. |
| `TelegramSending.RetryDelayShape` | src/sms_gateway_v2/telegram/client.py:282-283 | Back-off takes 1, 2, 4, 8 and 16 seconds, then 30 whatever the attempt. |

## Left out

Assumptions of the model:

- A rename, a replacing write, an unlink and a committed statement are each atomic and durable; what the file system, SQLite, D-Bus and the HTTP library do inside is not modelled.
- An I/O error or a cancellation in the middle of an operation counts as a crash.
- One process works on a state directory, so the branch of enqueue for a row that appears in between (`src/sms_gateway_v2/queue/queue.py:93-102`) is left out.
- Every item carries its content hash, as enqueue sees to; items from before that was so are left out.
- The clock does not run backwards, and random ids are fresh.
- Item ids are integers in the order in which a directory listing sorts the names.
- The content hash is an uninterpreted function of number, text, instant and window; the window arithmetic and SHA-256 are left out.
- One reading of the clock per queue operation, except that a cleanup has its three; requeue uses the same reading for its cutoff and its status stamps.
- In the state machine a cleanup does not run while a row of a valid file of its directory expires; what happens otherwise is `Retention.CleanupAgreesIff`.
- Attempts of the state machine include those that end before the network because the message could not be built.
- Whether an unforeseen error gets in the way of a sending is an input of the worker's pass; it comes before the first request.
- Delays are exact: floating-point rounding, and the overflow of the back-off for absurdly many attempts, are left out.

Not modelled:

- The application, its factory, configuration, metrics, logging, heartbeat, status reports and deployment.
- The order in which messages are listed and drained, and the decoding of time stamps and message types.
- Messages that arrive while the relay cancels its retry tasks, and the shutdown of the worker task.
- Two operations of the modem client interleaving; each public call is one step with arbitrary D-Bus failures.
- The call of `_get_proxy_object` with both of its flags set, which no caller makes.
- The reading of the single properties of a modem or a message, beyond its success or failure.
- HTML beyond the `b` element and the five entities that escaping produces.
- The temporary directory, which no file of an item stays in, is not consulted when looking for files of an id.
- Repeated ids in the list of expired rows, which a removal would meet a second time without effect.
- The update that finds no row before a claim repairs it, which changes nothing on the disk.
- Dedup.DedupStore.ReconcileStatus: is called on an open store only; the error for a closed one is left out, as its only caller opens it first. The same holds for the deletions and the listings of ids.
- DeliveryWorking.DeliveryWorker.ProcessOnePendingItem: runs a pass with no other queue operation in between; enqueues, cleanups and crashes in the middle of a pass are runs of the state machine, where the same events interleave one operation at a time.
- Scheduling.CleanupScheduler.RunCleanup: takes its three readings per cleanup before the cleanup's first step, and stops following the state machine once a row expired between them.
- Relaying.SmsRelay.Start: the relay's calls run one after the other here too, and starting the worker task is left out.
- Relaying.SmsRelay.ProcessSmsPath: runs while the queue is open only; a signal handler that is still waiting when the relay has stopped is left out. The same holds for OnNewSms, which returns the error it swallows; storing its text as the last error is left out.
- ModemManager.ModemManagerClient.ReadMessage: waits for the text as one step with an arbitrary result.
- ModemManager.ModemManagerClient.ListMessages: returns the messages as listed; the sorting at its end is left out.
