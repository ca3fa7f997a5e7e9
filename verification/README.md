# Verified models of the mail server's protocols

This project models, in Dafny, the concurrent protocols of the mail server whose guarantees the source
argues for in comments, and proves what they keep. `dafny verify dfyconfig.toml` checks all of it.

Two protocols are modelled as step systems in which database statements of different actors interleave
freely and any actor may crash:

- **Outbound upload slots and the sends that spend them.** `UploadRows` holds the table and every
  conditional UPDATE of `src/services/upload_service.py`; `UploadProtocol` interleaves PUT attempts, sends,
  drafts, lapsed-lease reclaims and sweeps over rows and files, one statement or one file operation at a
  time; `UploadSafety`, `UploadLeases`, `UploadFiles` and `UploadPayloads` prove what every run keeps, and
  `UploadDelivery` walks one delivery through, `UploadEndings` everything that can end otherwise. `UploadBudget` is
  the same service at await granularity, where the byte budget lives, and `UploadSweep` the sweep pass.
- **The mailbox lease and the transaction fence.** `MailboxLease` is the step system (row locks, open
  fenced transactions, half-done acquisitions, edits and refreshes); `MailboxFence` proves the fence,
  `MailboxExclusion` mutual exclusion and what exactly breaks it, `MailboxTokens` the stronger property of
  one token per mailbox, lapsed leases included, and `MailboxTakeover` which leases an acquisition takes
  over and which it spares.

The supporting cores each have a module or two of their own:

- `SendLedger`, `SendOnce`, `SendAnswers`, `SendDelivery`, `SendHandBack`: idempotency keys, the send audit,
  what retries are told, a send and a deletion carried through, and what a send overtaken by one gives back.
- `GmailBackfill`, `GmailHistory`: the resumable full sync and the history checkpoint.
- `FolderSnapshots`: the reconciler that retires placements and tombstones messages.
- `GmailThrottle`, `GmailPacing`, `GmailAdmission`: the shared throttle gate and pacer.
- `JobPool`, `JobFairness`, `JobDeadlines`: the fair scheduler and its budgets.
- `MailSearch`: exhaustive keyset search with deduplication.
- `ImapCursor`: the UID cursor of one IMAP folder, and the rows its messages are upserted into.
- `UidSets`, `MoveMail`: sequence sets, chunked moves and their reflection in the index.
- `LineEndings`: the CRLF normalisation of outgoing literals.

A step system is a total function `Next(state, step)`; a step whose actor is not in the right place, or
needs a row somebody has locked, changes nothing. "In every run" is then a statement about `Run(Init, steps)`
for every sequence of steps. Code that updates an object or a table in place without such interleaving is a
class whose methods are proved against functions of the old state. Clocks, process exits, server answers and
the points where a run is cut off are parameters. Lease tokens, idempotency tokens and row ids are never
reused, SHA-256 is an ideal hash, and clocks do not step back.

## Where the code and its documentation differ

Each of these is proved: a concrete run that shows the difference, and exactly when the property holds.

- `_reclaim_lapsed` reads the token outside its UPDATE, so the two can belong to different attempts. The
  reclaim then removes the wrong (already ended) attempt's file and leaves the dispossessed one's on the
  volume: `UploadPayloads.AReclaimCanMissAFile`; it removes the file of the claim it cleared exactly if the
  token it read is still the row's (`UploadPayloads.ReclaimDiscardsWhatItCleared`). It never removes a
  live holder's file.
- A dispossessed attempt that wakes up writes on until its next recheck, so the bytes on the volume can pass
  the budget while no slot is receiving (`UploadBudget.ADispossessedBodyOverruns`). The overrun is less than
  one recheck per open stream of a live slot, and less than one per receiving slot when no dispossessed
  attempt is still streaming (`UploadBudget.UploadService.BudgetsHold`); the open streams are as many as the
  receiving slots then and only then (`UploadBudget.OneStreamPerReceivingSlot`).
- With file operations interleaved, a sweep that selected an expired slot can empty the scratch file of an
  attempt between the promotion of the row and the move of the file (`UploadDelivery.ASweepCanEmptyAPayload`).
  A destination file is exact if and only if no truncation cost the winner's scratch file a byte
  (`UploadFiles.DestinationIsExactly`), so always for a slot no sweep has selected
  (`UploadFiles.DestinationIsExact`); what a send read is exact in any case
  (`UploadPayloads.HandedBytesAreExact`).
- `acquire_mailbox_lease` is documented as one statement but counts and updates in two. A sibling row added
  in between leaves a mailbox with two live tokens (`MailboxExclusion.ASiblingCanBeMissed`); a successful
  acquisition whose lease is still to come keeps exclusion exactly if it took every live row of the mailbox
  (`MailboxExclusion.EndIsExclusiveExactly`).
- `update_account` clears the lease columns by assigning `None`, which is no UPDATE if the loaded row had
  none; a lease taken during the connection test then survives the edit, and follows the row to another
  mailbox if the edit changes its identity (`MailboxExclusion.ALeaseCanBeMoved`). An edit keeps exclusion
  exactly if it saw the lease, there is no live one, the row stays with its mailbox, or every other live lease
  there carries the same token (`MailboxExclusion.SaveIsExclusiveExactly`).
- `refresh_mailbox_lease` reads the clock before it waits for the rows, so it can revive a lease that lapsed
  meanwhile (`MailboxExclusion.ALateRefreshRevives`, exactly when: `MailboxExclusion.RevivedExactly`, over
  runs: `MailboxExclusion.LapsedForGoodExactly`). It breaks exclusion
  (`MailboxExclusion.ALateRefreshBreaksExclusion`) exactly if a live lease of someone else stands beside a row
  it revives (`MailboxExclusion.LandIsExclusiveExactly`), which never happens while every mailbox keeps one
  token, lapsed leases included (`MailboxTokens.TidyRunsAreExclusive`). Fencing holds nevertheless.
- Over whole runs the three conditions together, on ends of acquisitions, edits and refreshes, are necessary
  and sufficient for at most one live token per mailbox (`MailboxExclusion.ExclusiveExactly`).
- A refused reconciliation is documented to cost one stale cycle, but its retirements are committed: the
  messages it would have tombstoned lose their placements and no later pass considers them again, as when a
  census finds a folder of more than twenty messages empty (`FolderSnapshots.AnEmptiedFolderStrands`). A
  message is stranded like this if and only if the pass that found it without a placement was refused
  (`FolderSnapshots.StrandedExactly`).
- A FETCH response without a UID is recorded under the sequence number, which may be the identity of another
  message; without a Message-ID the upsert then finds that one's row and the message is never stored,
  though the cursor passes it (`ImapCursor.AMessageIsLost`). A commit loses its message exactly if another
  one has its identity and it is not stored yet (`ImapCursor.CommitKeepsExactly`); with every message
  recorded once, nothing is lost if and only if the recorded identities are distinct
  (`ImapCursor.NothingLostExactly`), as they are when every response carries its UID.
- A history page that was interrupted and asked for again may by then say that a message is gone which the
  first attempt had brought in; under the tombstone policy it leaves a tombstone where an uninterrupted sync
  leaves nothing (`GmailHistory.ATombstoneRemains`). A run comes to the same after all if and only if the
  mailbox it found and the uninterrupted one agree on every message that none of its pages evens out
  (`GmailHistory.HistorySync.Run`, by `GmailHistory.AppliedAllAlikeExactly`).
- Chunked moves assign the destination UIDs one unchunked command would have assigned exactly if the UIDs
  ascend across chunks (`MoveMail.ChunkedAlikeExactly`, `MoveMail.ChunksCanReorder`); a selection is not
  sorted. What is recorded is correct either way, since it is what the server reported.

A starved sweep report, documented as a sign of trouble, is reachable only with a limit of zero
(`UploadSweep.Sweeper.Sweep`).

## Model

| member | source | states |
|---|---|---|
| UploadRows.OneWinner | src/services/upload_service.py:512-552 | Of two requests racing for one transition the second moves nothing |
| UploadRows.HandBackUndoesClaim | src/services/upload_service.py:970-985 | A failed PUT leaves the table as the reservation left it |
| UploadRows.RollbackUndoesPromotion | src/services/upload_service.py:946-968 | A promotion whose file move failed leaves what handing the slot back would have left |
| UploadRows.FailedSendUndoesClaim | src/services/upload_service.py:1100-1111 | A send that did not happen leaves the table as it found it |
| UploadRows.ReclaimUndoesPut | src/services/upload_service.py:708-740 | Once 300 seconds have passed since its last renewal, a reclaim leaves a slot being filled as the reservation left it |
| UploadRows.ReclaimRetiresSend | src/services/upload_service.py:708-740 | A reclaimed send leaves its slot as it was but for the state, which is 'unknown' for good |
| UploadRows.ReclaimedHolderIsFenced | src/services/upload_service.py:720-740 | A dispossessed holder can neither renew, promote nor hand back, and the slot can be claimed again |
| UploadRows.SuccessorIsSafe | src/services/upload_service.py:512-552 | Nor once another attempt has claimed the slot: the dispossessed holder moves nothing of its successor's |
| UploadRows.SettledAsReported | src/services/upload_service.py:1170-1191 | A slot is consumed exactly on success, given back exactly on a definite failure, and retired otherwise |
| UploadDelivery.AnUploadIsDelivered | src/services/upload_service.py:788-985 | A run in which any body is uploaded, handed to the transport byte for byte, consumed and freed |
| UploadEndings.AFailedPutLeavesNothing | src/services/upload_service.py:970-985 | From any state, a PUT that gives up while it holds its claim leaves the row as reserved, no file, and everything else as it was |
| UploadEndings.AFailedMoveLeavesNothing | src/services/upload_service.py:928-985 | So does one whose promotion was committed but whose file could not be moved |
| UploadEndings.RenewedExactly | src/services/upload_service.py:862-891 | A renewal by the attempt that holds the slot publishes its bytes and lasts 300 seconds; for any other attempt it is the end |
| UploadEndings.WrittenAtItsPlace | src/services/upload_service.py:860-893 | A write to an attempt's file lands at the attempt's own position, whatever truncated the file meanwhile |
| UploadEndings.LoadedExactly | src/services/upload_service.py:1065-1097 | A send accepts exactly a payload on the volume behind a row with a path and with the recorded size and digest |
| UploadEndings.AStalledPutIsDispossessed | src/services/upload_service.py:700-748 | A reclaim undisturbed by others turns a lapsed PUT's slot back to pending and removes exactly its attempt's file |
| UploadEndings.AnEarlyReclaimIsNothing | src/services/upload_service.py:700-740 | A reclaim that comes before the lease has run out changes nothing |
| UploadEndings.AStrandedPayloadIsFreed | src/services/upload_service.py:1408-1440 | Freeing a payload again removes that of a spent slot and clears its path, and does nothing to any other slot |
| UploadEndings.AStalledSendIsRetired | src/services/upload_service.py:700-753 | A reclaim undisturbed by others retires a lapsed send's slot as unknown and frees its payload |
| UploadEndings.ASweptSlotIsGone | src/services/upload_service.py:1380-1395 | A sweep of a selected row removes row and payload and queues the file of every attempt at it, and no other, for removal |
| UploadEndings.SettledAsAnswered | src/services/upload_service.py:1170-1246 | From any state in which a send holds all its slots, handing over and settling leaves each of them consumed on success, unknown if a mail's answer is missing or not a definite failure, and stored otherwise (a draft is filed, not delivered), frees the payloads of those not stored, and touches nothing else |
| UploadEndings.ARefusedSendGivesBack | src/services/mail_service.py:1557-1628 | A send refused before its transport, or whose payload does not load, gives every slot back |
| UploadEndings.AStepOutOfPlaceIsNothing | src/services/mail_service.py:1557-1628 | A send claims, loads, hands over, settles and ends in this order only |
| UploadEndings.RunKeepsWhole | src/services/mail_service.py:1557-1601 | In every run what is handed over has the payload of every slot named |
| UploadEndings.ADraftIsFiledOnce | src/services/write_service.py:816-842 | An error after a draft was filed settles its slots again, as failed, and moves none of them |
| UploadEndings.AllSlotsAreTaken | src/services/upload_service.py:1021-1062 | A send all of whose slots are stored claims all of them and changes nothing else |
| UploadEndings.OneSlotShortTakesNone | src/services/upload_service.py:1021-1062 | A send one of whose slots cannot be claimed gives back those it had claimed: the table is exactly as it found it |
| UploadSafety.AtMostOneDelivery | src/services/upload_service.py:512-552 | In every interleaving, of two sends that handed the same slot to a transport, one has settled as failed and given the slot back; of two mails, on its transport's own word |
| UploadSafety.NeverSpendableAgain | src/services/upload_service.py:1100-1246 | Once a mail with an outcome other than 'failed' reached its transport, its slots are never pending, receiving or stored again, although settlements are not fenced on the holder |
| UploadSafety.RunKeepsClaims | src/services/upload_service.py:1021-1062 | The claims of all sends stay apart: no two unsettled or undelivered-unknown sends hold one slot, at every statement |
| UploadSafety.StoredIsUnheld | src/services/upload_service.py:1021-1062 | A slot a send can claim is held by no other send |
| UploadSafety.FailedStaysFailed | src/services/upload_service.py:1170-1191 | A delivered report of failure is final |
| UploadLeases.PunctualAttemptKeepsItsSlot | src/services/upload_service.py:632-662 | In every run in which an attempt renews at least once per 300 seconds, it holds its slot for as long as it uploads unless a sweep deletes the row, and a reclaim could take the slot exactly from 300 seconds after its last claim or renewal on |
| UploadFiles.DestinationIsExactly | src/services/upload_service.py:928-985 | A destination file, whatever the state of its row, holds exactly the bytes of the attempt that won the promotion if and only if no truncation cost that attempt's scratch file a byte first, and only a sweep that selected the slot truncates it |
| UploadFiles.DestinationIsExact | src/services/upload_service.py:928-985 | Until a sweep selects the slot, the destination of a stored or sending row, expired or not, holds exactly what the promoted attempt streamed whenever it exists, and it exists once os.replace succeeded |
| UploadFiles.RowDescribesTheBody | src/services/upload_service.py:928-941 | The size and digest of a row that has had its bytes are those of what the promoted attempt streamed |
| UploadDelivery.ASweepCanEmptyAPayload | src/services/upload_service.py:1380-1395 | A run in which a sweep empties the file of an expired slot between promotion and move, leaving a stored row of one byte with an empty payload that no send accepts |
| UploadFiles.NoPayloadBeforePromotion | src/services/upload_service.py:928-950 | A pending or receiving slot has no file at its destination |
| UploadFiles.DispossessedIsInert | src/services/upload_service.py:877-881 | No step of an attempt that lost its claim changes a row, a destination or another attempt's file |
| UploadFiles.LosingIsForGood | src/services/upload_service.py:743-753 | An attempt that lost its claim never gets it back, in any continuation |
| UploadFiles.ReclaimsSpareTheHolder | src/services/upload_service.py:743-748 | The scratch file a winning reclaim queues for removal is that of an attempt which has lost its claim and never regains it, whatever happens until the removal and whether or not a sweep has selected the slot |
| UploadFiles.RemovalSparesTheHolder | src/services/upload_service.py:743-748 | Until a sweep selects the slot, no scratch file queued for removal, by whomever, is that of the attempt holding the claim |
| UploadFiles.TheHolderKeepsItsFile | src/services/upload_service.py:743-748 | In every run, while an attempt holds its slot (or has promoted it and not yet moved the file) and no sweep has selected it, no step of anybody else changes or removes its scratch file |
| UploadFiles.SweepsTakeGarbage | src/services/upload_service.py:1360-1395 | Every row a sweep has selected is terminal or expired |
| UploadFiles.RunKeepsFiles | src/services/upload_service.py:788-985 | The invariant tying rows, destinations, scratch files and attempts together survives every run |
| UploadPayloads.HandedBytesAreExact | src/services/upload_service.py:1065-1097 | Every payload a send read is exactly what the slot's promoted attempt streamed, even while a sweep removes the slot |
| UploadPayloads.LoadedIsStreamed | src/services/upload_service.py:1065-1097 | Comparing size and digest with the row lets through nothing but the streamed bytes |
| UploadPayloads.AReclaimCanMissAFile | src/services/upload_service.py:708-748 | A run in which a reclaimed attempt's bytes stay on the volume uncharged |
| UploadBudget.UploadService.BudgetsHold | src/services/upload_service.py:238-297 | At every await, an owner's charges, written as what arrived, is arriving or is promised, fit the byte budget, their slots fit the cap, and the bytes really written, dispossessed attempts included, exceed the budget by less than 1 MiB per open stream of a live slot, and by less than 1 MiB per receiving slot when no dispossessed attempt is still streaming; the two counts agree if and only if none is |
| UploadBudget.ADispossessedBodyOverruns | src/services/upload_service.py:862-891 | A run that ends with 9 bytes on the volume under a budget of 5, and no slot receiving |
| UploadBudget.OneStreamPerReceivingSlot | src/services/upload_service.py:865-891 | Every receiving slot has an open stream, and there are no others on live slots if and only if no dispossessed attempt is still streaming |
| UploadBudget.UploadService.Totals | src/services/upload_service.py:267-297 | The loop over live rows computes the owner's slot count and byte total, or the total without one slot: the bytes that arrived in stored slots, the greater of promise and arrival in receiving ones, and the promises of the rest |
| UploadBudget.UploadService.Begin | src/services/upload_service.py:412-458 | A reservation is refused for a bad size, for the slot cap or for the byte budget, and succeeds if and only if the size is good, the live slots are below the cap and what arrived, is arriving and is promised, plus the new promise, is within budget; both budgets hold after it |
| UploadBudget.UploadService.OpenPut | src/services/upload_service.py:800-859 | A PUT goes ahead if and only if the slot is the caller's, unexpired, and pending or lapsed; every other state has its own refusal, a lapsed one being reclaimed first; an accepted PUT holds the slot under a fresh token for a whole lease, with the allowance everybody else leaves, and keeps both budgets |
| UploadBudget.UploadService.Receive | src/services/upload_service.py:862-891 | A chunk is accepted exactly when it fits the allowance and, at a recheck, the claim is still held and the body so far fits the limit and, beside all other slots of the owner, the budget; an accepted recheck publishes the bytes and cannot be reclaimed before a whole lease has passed; a refused chunk hands the slot back; the budgets hold either way |
| UploadBudget.UploadService.Finish | src/services/upload_service.py:892-985 | The body is promoted exactly when size and digest match, the claim is still held and the file moved; every other end hands the slot back; after a promotion the owner is charged what was spent elsewhere plus the bytes that arrived, and nobody is charged more |
| UploadBudget.UploadService.Disconnect | src/services/upload_service.py:970-985 | A body cut off mid-stream hands its slot back and keeps both budgets |
| UploadBudget.UploadService.ReclaimLapsed | src/services/upload_service.py:665-753 | A reclaim moves a lapsed claim to its fallback state, empties the scratch file of the attempt it dispossesses, and keeps both budgets |
| UploadBudget.UploadService.Delete | src/services/upload_service.py:1380-1395 | Deleting a row empties every scratch file still being written into its slot, and keeps both budgets |
| UploadBudget.UploadService.ClaimForSend | src/services/upload_service.py:1021-1062 | Exactly a stored slot is claimed, under a fresh token and for a whole lease, and the charge does not change |
| UploadBudget.UploadService.SettleSlot | src/services/upload_service.py:1100-1145 | A settlement moves exactly a sending slot and raises no owner's charge |
| UploadBudget.UploadService.RenewedFits | src/services/upload_service.py:868-887 | What a second look at the allowance accepts fits beside every other slot, promise and bytes alike |
| UploadBudget.CommittedIsSpent | src/services/upload_service.py:238-274 | The sum of charges is the bytes of stored slots, plus the greater of promise and arrival of receiving ones, plus the promises of unfilled ones, a missing promise counting as the attachment limit |
| UploadBudget.AllowanceExactly | src/services/upload_service.py:841-850 | A body fits the allowance if and only if it passes neither the attachment limit nor, beside everything the owner's other slots cost, the budget |
| UploadBudget.WrittenIsNearlyCommitted | src/services/upload_service.py:860-891 | All written bytes trail the charges by less than one recheck per open stream |
| UploadSweep.Sweeper.Sweep | src/services/upload_service.py:1360-1407 | One pass is reclaim, delete, collect; every examined row is removed, as many as limit and actionable rows allow; 'starved' holds only for limit 0 |
| UploadSweep.Sweeper.Select | src/services/upload_service.py:1362-1378 | The bounded query returns the first `limit` matching rows in id order |
| UploadSweep.PassDeletes | src/services/upload_service.py:1360-1395 | One pass deletes exactly the first `limit` actionable rows and leaves the rest of the queue as it was |
| UploadSweep.SelectedExactly | src/services/upload_service.py:767-777 | Each of the three bounded queries returns exactly the rows it is for that have fewer than `limit` such rows before them: claims past their lease; rows consumed or expired; unexpired 'unknown' rows with a path |
| UploadSweep.DeletedExactly | src/services/upload_service.py:1362-1395 | A pass deletes a row if and only if it is consumed or expired and fewer than `limit` such rows have lower ids, whatever the reclaims before it did |
| UploadSweep.ReclaimedExactly | src/services/upload_service.py:708-777 | The reclaims at the top of a pass take back exactly the first `limit` claims past their lease: a PUT's slot becomes pending without its attempt's file, a send's becomes unknown without its payload unless the volume refuses; nothing else changes |
| UploadSweep.CollectedExactly | src/services/upload_service.py:1408-1440 | The net at the end frees exactly the first `limit` stranded payloads that do not resist, clears their paths, and counts them |
| UploadSweep.PassesDelete | src/services/upload_service.py:1362-1395 | k passes at any advancing clock readings, between which no row becomes actionable, delete exactly the first min(k * limit, actionable) rows in id order, however many retained rows stand before them |
| UploadSweep.WaitIsBounded | src/services/upload_service.py:1360-1395 | Whatever happens between passes, an actionable row cannot survive more passes than the rows older than it fill windows |
| UploadSweep.ReclaimDoomsNothing | src/services/upload_service.py:1360-1361 | The reclaims at the top of a pass change nothing about what the pass deletes |
| UploadSweep.DeletedSlotsLeaveNothing | src/services/upload_service.py:1380-1394 | A deleted row leaves no scratch file, and no payload unless the volume refused to unlink it |
| MailboxFence.CommitsAreFenced | src/database/sync_fence.py:39-66 | The fenced commits on a row are grouped by token, and each had a live lease at begin and before commit and met its deadline |
| MailboxFence.LostLeaseNeverCommits | src/database/sync_fence.py:39-66 | Once a row is gone or names another token or none, the old token never commits on it again |
| MailboxFence.OpenTransactionKeepsItsRow | src/services/account_deletion.py:58-78 | While a fenced transaction is open its row exists and names its token, and no second one is open on it |
| MailboxFence.ExpiryIsCapped | src/email/email_processor.py:133-158 | No expiry is later than the lock time plus the job cap |
| MailboxFence.RunKeepsInv | src/email/email_processor.py:82-170 | Locks, open transactions, acquisitions and rows stay consistent through acquire, refresh, release, recover, edit, delete and insert |
| MailboxFence.ClearKeeps | src/sync_scheduler.py:54-72 | Clearing a dead worker's token on all its rows keeps the invariant |
| MailboxExclusion.ExclusiveExactly | src/email/email_processor.py:71-158 | Over any run, all live rows of a mailbox carry one token at every statement if and only if every acquisition that succeeded in time took every live row of its mailbox, no edit carried a live lease it had not loaded beside somebody else's, and no refresh revived a lease beside one |
| MailboxExclusion.StepIsExclusiveExactly | src/email/email_processor.py:71-158 | Any one statement of any actor keeps exclusion if and only if it meets the condition on its kind, and statements of all other kinds always do |
| MailboxExclusion.AtMostOneHolder | src/email/email_processor.py:71-130 | In every such run two live rows of one mailbox are held by one token |
| MailboxExclusion.SaveIsExclusiveExactly | src/handlers/email_handler.py:274-306 | An edit keeps exclusion if and only if it saw the lease, there is no live one, the row stays with its mailbox, or every other live lease on the new mailbox carries the same token |
| MailboxExclusion.LandIsExclusiveExactly | src/email/email_processor.py:133-158 | A refresh keeps exclusion if and only if no row it revives has a live lease of someone else beside it |
| MailboxTokens.OneTokenExactly | src/email/email_processor.py:71-130 | Over any run, all leased rows of a mailbox, lapsed ones included, carry one token at every statement if and only if every successful acquisition took every leased row of its mailbox and no edit carried a lease it had not loaded to somebody else's |
| MailboxTokens.SaveKeepsOneTokenExactly | src/handlers/email_handler.py:274-306 | An edit keeps one token per mailbox if and only if it saw the lease, there is none, the row stays with its mailbox, or every other lease on the new mailbox is the same one |
| MailboxTokens.TidyRunsAreExclusive | src/email/email_processor.py:133-158 | In such a run exclusion holds at every statement, whatever refreshes revive |
| MailboxExclusion.TakesAllExactly | src/email/email_processor.py:95-130 | A successful acquisition holds all rows of the mailbox if and only if as many exist as it counted |
| MailboxExclusion.EndIsExclusiveExactly | src/email/email_processor.py:95-130 | The end of an acquisition keeps exclusion if and only if it fails, comes after its own lease has passed, or every live row of the mailbox is among those it took |
| MailboxExclusion.AllOrNone | src/email/email_processor.py:104-130 | An acquisition that ends holds exactly the rows it took, as many as it counted and for the time asked, or changes no row |
| MailboxTakeover.TakenOverExactly | src/email/email_processor.py:82-130 | An acquisition in the course of which no row of the mailbox is inserted, moved, deleted, leased or locked by others ends with all of them under its token, for the time asked up to the cap, if and only if each had no expiry or one before its clock reading; otherwise the mailbox is as it was |
| MailboxTakeover.AnUndisturbedAcquisition | src/email/email_processor.py:95-130 | On a mailbox without locked rows the count, the scan, a visit to every row and the end make such an acquisition |
| MailboxTakeover.LiveLeasesAreSpared | src/email/email_processor.py:104-130 | In every run an acquisition changes only rows of its mailbox without an expiry or with one before its clock reading |
| MailboxTakeover.RefreshedInTimeExactly | src/email/email_processor.py:133-158 | A refresh extends every row of its lease to the time asked, or the cap if that is sooner, if and only if all of them were still running at its clock reading; it changes no other row |
| MailboxExclusion.ReleaseUndoesAcquire | src/email/email_processor.py:161-170 | Releasing a lease frees exactly the rows it was taken on and leaves every other row as it was |
| MailboxExclusion.RightfulHolderCommits | src/database/sync_fence.py:39-66 | A transaction of a live lease on an unlocked row begins, validates and commits |
| MailboxExclusion.ATransactionCommits | src/database/sync_fence.py:39-66 | A transaction of a live lease on an unlocked row, begun in time and left alone, commits and leaves no lock |
| MailboxExclusion.ASiblingCanBeMissed | src/email/email_processor.py:95-130 | A run that leaves one mailbox with two live tokens through an insert between count and update |
| MailboxExclusion.ALeaseCanBeMoved | src/handlers/email_handler.py:274-306 | A run that leaves one mailbox with two live tokens through an edit that loaded the row unleased |
| MailboxExclusion.LapsedForGoodExactly | src/email/email_processor.py:133-158 | Over any run, a lapsed lease is never live again if and only if no refresh with an early clock reading lands while its new expiry is still to come |
| MailboxExclusion.RevivedExactly | src/email/email_processor.py:133-158 | Exactly when a refresh revives a lapsed lease: its early clock reading precedes every expiry and the expiry it computes is still to come |
| MailboxExclusion.ALateRefreshRevives | src/email/email_processor.py:133-158 | A run in which a lapsed lease becomes live again |
| MailboxExclusion.ALateRefreshBreaksExclusion | src/email/email_processor.py:133-158 | A run that leaves one mailbox with two live tokens through such a refresh |
| MailboxTakeover.EveryVisitCounts | src/email/email_processor.py:104-120 | A row the UPDATE visits is done with, whether it is taken or no longer matches |
| MailboxTakeover.NoTimeNoLease | src/email/email_processor.py:82-86 | Asking for no time acquires nothing |
| MailboxTakeover.EditedExactly | src/handlers/email_handler.py:274-306 | An edit moves its row if that is still there, ends its lease if and only if the row showed one when it was loaded, and touches no other row |
| MailboxTakeover.DeletedForGood | src/services/account_deletion.py:58-78 | A deleted account row is gone and its id never comes back, in any continuation |
| SendOnce.AtMostOneCall | src/services/mail_service.py:1506-1601 | For every owner and key at most one transport call is ever made, across retries, failures, crashes and deletions |
| SendOnce.NoDeletionBesideAYoungSend | src/services/account_deletion.py:114-148 | When a deletion commits, no pending audit of the account is younger than the window |
| SendOnce.OvertakenSendsNothing | src/services/mail_service.py:1557-1628 | A send whose account is deleted before its audit commits reaches no transport in any continuation |
| SendHandBack.OvertakenHandsBack | src/services/mail_service.py:1614-1628 | Over any run in which the settlement of such a send ends, every slot still 'sending' under it when the settlement began is turned from 'sending' to 'stored' by the settlement, unless it was retired or swept first, and the send does nothing else to any slot |
| SendHandBack.RunKeepsHolders | src/services/upload_service.py:1021-1062 | In every run no two unsettled sends hold one slot, and what they hold nobody can claim |
| SendHandBack.ACallHasItsSlots | src/services/mail_service.py:1557-1601 | In every run a send that is with its transport holds every slot it names, which nobody else can claim or holds |
| SendOnce.AnswersAreForGood | src/models/send_audit.py:9-36 | What a settled key answers to a retry it answers for ever, whether or not the account exists; which answer that is: SendAnswers.ReportIsTheAnswer |
| SendAnswers.ReportIsTheAnswer | src/services/mail_service.py:1507-1531 | Over every run, once a transport's report is written, a retry is replayed for ever if it was a success (or its state 'sent'), and otherwise refused with the reported delivery state, 'failed' if there was none; if the report could not be written, as 'pending'; a different request under the key is a conflict |
| SendAnswers.RetryEndsAtOnce | src/services/mail_service.py:1507-1531 | A retry that finds an audit of its key ends there, claiming no slot and making no call |
| SendOnce.StepKeepsInv | src/services/account_deletion.py:58-78 | Audits, pending inserts, transport calls and deletions stay consistent through every statement of every actor |
| SendOnce.UnhinderedSendCalls | src/services/mail_service.py:1563-1601 | A send with a fresh key and all its slots, on an account nobody is deleting, does reach its transport, and a retry from then on is refused as pending |
| SendDelivery.AFreshSendIsSent | src/services/mail_service.py:1506-1628 | From any state, a request with a fresh key, an account not being deleted and all its slots stored makes exactly one call, records the reported status, and leaves every slot of it consumed on success, stored on a definite failure and unknown otherwise, and everything else as it was |
| SendDelivery.DeletedExactly | src/services/account_deletion.py:58-148 | A deletion takes the account and detaches its audits if and only if the account is the owner's, no other deletion holds it, no audit of it is being written and none is pending and younger than the window; otherwise it changes nothing |
| SendDelivery.GivenUpIsNothing | src/services/account_deletion.py:58-148 | A deletion given up after its lock or its check leaves everything as it was |
| SendDelivery.SpentForGood | src/services/upload_service.py:1170-1191 | In every run a consumed slot, or one of unknown delivery, stays so until it is swept |
| SendDelivery.UnnamedStaysStored | src/services/upload_service.py:1021-1062 | In every run a stored slot that no request has named stays stored until it is swept |
| GmailBackfill.FullSync.Run | src/email/email_processor.py:793-868 | However a run is cut short it keeps its generation, asks for no recorded message, and every step it reports is a message newly recorded or a page finished; a completed sync has followed the listing to its end, whatever the server listed from one visit to the next, has recorded and kept alive every message on the pages it finished unless the server had answered that it was missing, and has treated the rest by policy; a run nothing goes wrong with completes if the listing ends within its page limit |
| GmailBackfill.FullSync.FetchAndProcess | src/email/email_processor.py:918-967 | Chunk by chunk, what arrived is committed before a failure is raised, and what is reported as committed was |
| GmailBackfill.FullSync.CommitChunk | src/email/email_processor.py:939-963 | A chunk's messages are recorded one by one, live and under this generation, until the run is cut off |
| GmailBackfill.FullSync.FinishPage | src/email/email_processor.py:845-868 | Saving a page token or completing adds exactly this page to the finished ones, only once every message listed on it is recorded or missing, and completes exactly if it names no next page |
| GmailBackfill.FullSync.Complete | src/email/email_processor.py:1016-1047 | Completion leaves recorded messages alone and removes, tombstones or keeps the others by policy |
| GmailBackfill.FullSync.ReconciledExactly | src/email/email_processor.py:1016-1047 | A message recorded under this generation survives completion as it is; any other is removed, marked deleted or kept as it is, by policy |
| GmailBackfill.FullSync.Snapshot | src/email/email_processor.py:808-825 | A new snapshot starts a generation under which nothing is recorded |
| GmailBackfill.NotYetSeenExactly | src/email/email_processor.py:970-983 | The filter keeps exactly the listed messages this generation has not recorded |
| GmailHistory.HistorySync.Run | src/email/email_processor.py:870-916 | However runs are cut short and whatever the server answers when asked again, the checkpoint stands, with the saved token counting exactly the pages finished since, each asked for with the token of the one before, or moves past all of them at once; the mailbox is then what these pages, each applied once and uninterrupted, make of the one at the old checkpoint, but for messages an interrupted attempt had touched which the finished page says are gone, or no longer names; it is the same if and only if none of its pages leaves a difference standing that the run found; a page that still names what it named before leaves none of the latter |
| GmailHistory.HistorySync.VisitPage | src/email/email_processor.py:889-916 | A page's token is saved only after the whole page is applied, and the mailbox is then the uninterrupted one if and only if the page evens out every difference there was; cut short, the same page is next from the same start, only messages it named were disturbed, and what was committed is what the number of commits allowed |
| GmailHistory.HistorySync.ApplyPage | src/email/email_processor.py:894-900 | Cut off at any commit, a page disturbs no message it does not name, and those it does only as the policy allows; uninterrupted, it is the page's application |
| GmailHistory.PartThenWhole | src/email/email_processor.py:918-967 | Part of a page followed by all of it equals all of it |
| GmailHistory.AgainIsNothing | src/email/email_processor.py:1050-1069 | Re-applying a page changes nothing, under every deletion policy |
| GmailHistory.FinishedNear | src/email/email_processor.py:894-900 | A finished page brings a disturbed mailbox as near to the ideal one as it was, but for the disturbed messages the page says are gone or does not name |
| GmailHistory.AppliedAlikeExactly | src/email/email_processor.py:894-900 | A page comes to the same on two mailboxes if and only if they agree on every message it does not even out |
| GmailHistory.AppliedAllAlikeExactly | src/email/email_processor.py:889-916 | Several pages come to the same on two mailboxes if and only if they agree on every message that none of the pages evens out |
| GmailHistory.ATombstoneRemains | src/email/email_processor.py:870-916 | A first run from an empty mailbox, cut off after its first commit, and a second one that finishes the page as it reads by then, leave a tombstone where the pages applied without interruption leave an empty mailbox |
| GmailHistory.AppliedMeans | src/email/email_processor.py:870-916 | What a page says of a message is what the mailbox says afterwards, and unnamed messages keep their state |
| GmailHistory.Changes | src/email/email_processor.py:986-1002 | The loops over a page's records collect exactly the changed and the deleted ids |
| GmailHistory.NamedExactly | src/email/email_processor.py:986-1002 | An id is changed, or deleted, if and only if some record of the page names it so |
| FolderSnapshots.Account.Apply | src/email/email_processor.py:186-324 | The loops retire exactly the judged placements, give every sighted message the flags of its best sighting, and tombstone the doomed unless they are too many |
| FolderSnapshots.Account.FindAddressable | src/email/email_processor.py:231-236 | The first loop finds exactly the messages with a placement that is not stale |
| FolderSnapshots.Account.Judge | src/email/email_processor.py:238-258 | The second loop finds exactly the retired placements and, per message, a sighting no other one precedes |
| FolderSnapshots.TombstonedExactly | src/email/email_processor.py:219-324 | A message is tombstoned if and only if the pass is not refused, all its placements are absent or stale, and at least one is absent under current or unrecorded numbering |
| FolderSnapshots.SparedMessages | src/email/email_processor.py:231-248 | A message filed in an unseen folder, present somewhere, known only by old numbers, or without placement is never tombstoned |
| FolderSnapshots.BoundedLoss | src/email/email_processor.py:298-314 | One pass tombstones at most max(20, min(200, n div 50)) of n placed messages |
| FolderSnapshots.RefusedExactly | src/email/email_processor.py:298-314 | A pass is refused if and only if it would tombstone more than 20 messages, and more than 200 or a fiftieth of those placed |
| FolderSnapshots.SameCensusTwice | src/email/email_processor.py:186-324 | Applying the same census twice equals applying it once, flags included |
| FolderSnapshots.StrandedExactly | src/email/email_processor.py:296-314 | Over any sequence of passes, a live, placed message ends up neither deleted nor placed if and only if the pass that found it without a placement was refused |
| FolderSnapshots.RefusalStrands | src/email/email_processor.py:296-314 | After a refusal the doomed messages have no placement and no later pass changes whether they are deleted |
| FolderSnapshots.AnEmptiedFolderStrands | src/email/email_processor.py:296-314 | A census that finds a folder of more than twenty messages empty is refused and strands every one of them for good |
| FolderSnapshots.ObservedFlags | src/email/email_processor.py:252-258 | A message's best sighting, and so its flags, do not depend on row order |
| FolderSnapshots.LiveFolderDecides | src/email/email_processor.py:252-258 | A message takes the flags seen in its first live folder by name, and an excluded folder's only if it was sighted in no live one |
| GmailPacing.RequestsAreHeldBack | src/email/gmail_api_client.py:141-173 | Across all tasks no request starts before a gate closed earlier has opened, requests on paced slots start an interval apart, and a throttle is noted only for a request sent since the last one noted |
| GmailPacing.PacedClientsUseSlots | src/email/gmail_api_client.py:141-158 | While the client is paced every request that starts takes a paced slot, and an event is recorded exactly when a request starts |
| GmailPacing.ThrottledRequestsAreSpaced | src/email/gmail_api_client.py:141-173 | Over every run, any two requests started while the client is paced start at least the interval apart |
| GmailPacing.WaitsEndByTheDeadline | src/email/gmail_api_client.py:141-173 | No throttle sleep targets a time past the deadline, and the pace lock is never orphaned |
| GmailPacing.EscalatesExactly | src/email/gmail_api_client.py:175-199 | Late answers change only the pacing flag; any other throttle escalates the streak, is noted, and closes the gate for the server's Retry-After between one second and five minutes, or without one for 5, 10, 20, ... up to 60 seconds by streak, unless it is closed longer already; the call gives up if that passes its deadline |
| GmailPacing.AttemptsAreBounded | src/email/gmail_api_client.py:201-243 | A call attempts at most four times plus once per second from its first attempt to the deadline |
| GmailPacing.RetriedExactly | src/email/gmail_api_client.py:201-243 | A refused token is retried exactly once, a transient failure exactly twice after its delay; every other answer is returned |
| GmailPacing.BackingWaits | src/email/gmail_api_client.py:235-241 | After a transient failure a call sleeps until its delay is over and is then ready for its next attempt |
| GmailAdmission.ALoneCallIsAdmitted | src/email/gmail_api_client.py:141-173 | From any state with a free pace lock, a lone call goes out exactly when the gate and, while paced, its slot allow it, or is refused exactly when that is past the deadline |
| GmailAdmission.AFreshClientSendsAtOnce | src/email/gmail_api_client.py:141-199 | The first request of a client starts at once, and its first throttle without Retry-After closes the gate for five seconds |
| JobPool.Supervisor.Tick | src/sync_supervisor.py:81-124 | A tick reaps, forgets, admits and starts from a queue holding exactly the eligible accounts in order |
| JobPool.Supervisor.Reap | src/sync_supervisor.py:83-105 | The reaping loop: every exited attempt is recorded and rests, every overdue one is stopped |
| JobPool.Supervisor.Sorted | src/sync_supervisor.py:114-117 | The sorted list holds exactly the eligible accounts, earliest first, ties by id |
| JobPool.Supervisor.Start | src/sync_supervisor.py:118-124 | The starting loop stops at the concurrency limit or the first account not due |
| JobFairness.AtMostOneTurnEach | src/sync_supervisor.py:81-124 | While a startable account waits, every other account is started at most once, over any number of ticks |
| JobFairness.NoOvertaking | src/sync_supervisor.py:114-124 | Nobody is started before an account earlier in the queue |
| JobFairness.WorkConserving | src/sync_supervisor.py:114-124 | A tick leaves a due account waiting only if every slot is taken, at least one however low the concurrency is set |
| JobFairness.ReapedExactly | src/sync_supervisor.py:83-105 | Whatever the loop order, an exited attempt is recorded with its reason and its account rests, at least 30 seconds after a failure; any other attempt goes on |
| JobFairness.BooksBalance | src/sync_supervisor.py:81-124 | Over any run, spawned equals reaped plus active and active never exceeds the concurrency |
| JobFairness.AccountsComeAndGo | src/sync_supervisor.py:109-113 | A tick forgets an account exactly if it is no longer enabled and has nothing running; a new one is due at once and every other keeps its due time, result and count |
| JobDeadlines.BudgetsAreKept | src/sync_supervisor.py:81-124 | Over any ticks from an empty pool, a running attempt's deadline is its budget after its start and it is being stopped just if a tick found it there; a result says 'deadline' if and only if it came at or after the deadline, and otherwise success exactly for exit code 0 |
| MailSearch.SearchIsExhaustive | src/services/mail_service.py:821-965 | Following next_cursor to the end yields, in order and without repeats or gaps, the matches with every later row of a logical key removed, as many as total_count |
| MailSearch.RestAfterCursor | src/services/mail_service.py:499-514 | From a cursor the database finds exactly the rest of the answer, null dates and ties included |
| MailSearch.KeysetIsBelow | src/services/mail_service.py:499-514 | The keyset condition of a row holds of exactly the rows after it |
| MailSearch.AllPages | src/services/mail_service.py:879-941 | The pages from a cursor on, whatever their sizes, concatenate to the rest of the answer |
| MailSearch.NextCursorIsNextRow | src/services/mail_service.py:879-941 | A page holds the next rows, as many as asked for between one and a hundred or all that are left, and has a next cursor, that of its last row, exactly if there are more |
| MailSearch.RepresentativesAreFirsts | src/services/mail_service.py:821-858 | Keeping row number one of each partition keeps exactly the first row of each key in answer order |
| MailSearch.NoMessageTwice | src/services/mail_service.py:447-466 | No two rows of the answer are copies of one message: with one content fingerprint in mirror mode, or one Message-ID regardless of case where that does not decide |
| MailSearch.EveryMessageOnce | src/services/mail_service.py:447-466 | Every matching row is in the answer itself or stands for a copy above it |
| MailSearch.NothingToDrop | src/services/mail_service.py:447-466 | Without deduplication no row shares a key with another |
| ImapCursor.DeliveredBehind | src/email/smtp_client.py:387-405 | Mail that arrives stands behind what was there, under UIDs never given out before |
| ImapCursor.FolderSync.Run | src/email/smtp_client.py:365-520 | Wherever a run is cut off, it has upserted exactly a first part of the messages found, in order; the persisted cursor covers nothing of the current numbering that was not upserted or unparseable and never moves back under one numbering; "backfill complete" is declared only when everything on the server is dealt with; as long as every response carries its UID, no upserted message is lost |
| ImapCursor.FolderSync.FetchFound | src/email/smtp_client.py:436-516 | The loop deals with the oldest messages found first, so truncation leaves the newest |
| ImapCursor.SearchFindsExactly | src/email/smtp_client.py:375-405 | The search finds a message if and only if the numbering is new, there is no cursor, its UID is above the cursor, or it is the last one (which `n:*` always includes) |
| ImapCursor.LimitTakesTheOldest | src/email/smtp_client.py:415-420 | As many of the found messages are taken as the limit allows, all without one, the oldest first |
| ImapCursor.IdleExactly | src/email/smtp_client.py:387-392 | A folder is skipped without a search if and only if the server says that no UID above the cursor has been given out under this numbering |
| ImapCursor.FolderSync.FetchMessage | src/email/smtp_client.py:454-502 | One message is upserted under the identity its response gives, before its cursor; a replayed UID adds nothing, and only what does not parse is passed over |
| ImapCursor.CommitKeepsExactly | src/email/email_processor.py:1091-1135 | After its upsert a message is stored if and only if it was before or its identity was free, and no other message is lost by it |
| ImapCursor.NothingLostExactly | src/email/message_identity.py:24-49 | With every message recorded once, every recorded message is stored if and only if different messages were recorded under different identities |
| ImapCursor.HeldExactly | src/email/message_identity.py:24-49 | A recorded message is stored if and only if one of its recordings came first under its identity, or after one of the same message |
| ImapCursor.CoveredAreHeldExactly | src/email/smtp_client.py:457-501 | A message the cursor covers and that could be parsed is stored under that same condition |
| ImapCursor.NamedResponsesLoseNothing | src/email/smtp_client.py:457-467 | If every message was recorded under its own UID, none is lost |
| ImapCursor.AMessageIsLost | src/email/smtp_client.py:457-467 | A whole run over UIDs 2, 5 and 9 whose second response carries no UID: the cursor ends at 9 and no row has the message with UID 5 |
| ImapCursor.FolderSync.PersistBatch | src/email/email_processor.py:1270-1312 | A batch's cursor never goes back under one numbering and starts over under a new one |
| ImapCursor.FolderSync.Conclude | src/email/email_processor.py:1314-1348 | The final cursor write, under the same rule; it reaches the highest UID the run fetched |
| ImapCursor.AdvancedOk | src/email/email_processor.py:1298-1308 | Moving the cursor to a covered UID keeps everything it covers dealt with |
| ImapCursor.RecordedUidIsCovered | src/email/smtp_client.py:457-467 | A cursor taken from a response without UID, which is a sequence number, covers no message not dealt with |
| ImapCursor.SequenceBelowUid | src/email/smtp_client.py:457-467 | A sequence number never exceeds its message's UID |
| UidSets.ExpandUidSet | src/email/imap_writer.py:106-117 | The parsing loop computes the expansion of the set, part by part |
| UidSets.ExpandRender | src/email/imap_writer.py:106-117 | Expanding any sequence set a server can write gives the UIDs it denotes, in its order |
| UidSets.ExpandCompressed | src/email/imap_writer.py:106-117 | Expanding a range-compressed list returns the list |
| UidSets.CompressIsMaximal | src/email/imap_writer.py:106-117 | The compressed form of a list, as servers answer it, has no two runs that could be one |
| MoveMail.CopyUidPairs | src/email/imap_writer.py:120-141 | However COPYUID writes its sets, source and destination are paired by position under the response's own validity |
| MoveMail.RecordedFromOneResponse | src/email/imap_writer.py:162-164 | A recorded destination UID and its validity come from one and the same response |
| MoveMail.MoveMessages | src/email/imap_writer.py:144-192 | Moves succeed exactly if every command did, record all responses in order, and expunge nothing but moved UIDs whose copy was made and whose original was marked, all of them when the server can |
| MoveMail.EveryPairIsRecorded | src/email/imap_writer.py:162-164 | Every pair of UIDs a response names is recorded with its validity, unless a later response names the source UID again |
| MoveMail.ChunksAreTheList | src/email/imap_writer.py:29-39 | The chunks concatenate to the list, none empty or too long |
| MoveMail.ChunkedAlikeExactly | src/email/imap_writer.py:166-192 | Chunked commands give every message the UID one command would have, if and only if the UIDs ascend across chunks |
| MoveMail.AscendingListChunksAlike | src/email/imap_writer.py:29-39 | An ascending list may be chunked anywhere |
| MoveMail.ChunksCanReorder | src/email/imap_writer.py:166-192 | The list 9, 3 in chunks of one lands the other way round |
| MoveMail.Index.ReflectMove | src/services/write_service.py:468-500 | The grouped loops compute the target-by-target update, and moved, already there and unconfirmed count the targets of each kind and add up to all of them |
| MoveMail.ByFolder | src/services/write_service.py:206-210 | Grouping keeps every target once, under its own folder |
| MoveMail.ReflectedExactly | src/services/write_service.py:468-490 | Row by row: confirmed targets leave their folder and stand at the destination with the reported UID and validity; nothing else changes |
| MoveMail.ConfirmedExactly | src/services/write_service.py:468-484 | A target is moved if and only if it is not at the destination already and the server named its UID in its folder, and then to where the server said |
| MoveMail.UnplacedExactly | src/services/write_service.py:476-490 | A target is left without a placement only by a move to an unnamed folder |
| MoveMail.OrderDoesNotMatter | src/services/write_service.py:206-210 | The update does not depend on the order of the targets |
| LineEndings.FastPathExactly | src/email/draft_builder.py:104-107 | The counting fast path is taken exactly when every CR and every LF is part of a CRLF |
| LineEndings.FastPathAgrees | src/email/draft_builder.py:104-107 | The fast path agrees with the full rewrite on every byte string |
| LineEndings.CleanAndIdempotent | src/email/draft_builder.py:90-107 | The result has no bare CR or LF, and normalising again changes nothing |
| LineEndings.SentText | src/email/draft_builder.py:90-107 | The result is the text's own lines joined by CRLF, line for line the same text |

## Left out

- MailboxExclusion.AtMostOneHolder: speaks of careful runs, which are exactly the runs in which the live rows of every mailbox carry one token throughout.
- UploadBudget.UploadService.Receive: clock readings inside one await-to-await stretch are one reading.
- GmailBackfill.FullSync.Run: one page of the listing names no id twice.
- GmailHistory.HistorySync.Run: ids are fetched in any order where the code sorts them.
- JobFairness.AtMostOneTurnEach: no manual requests, which move an account's due time, a positive interval, and ticks at increasing times.
- JobPool.Supervisor.Tick: one clock reading serves the whole tick, and signals and waiting for a killed process are reduced to the exit code that is polled.
- ImapCursor.FolderSync.Run: the server reports UIDVALIDITY on every SELECT; cursor rows without a recorded validity are not part of this model, nor are several folders sharing one limit, rows from before stable identities, the length limit of the identity column, or a Message-ID that looks like a place.
- MoveMail.ChunkedAlikeExactly: the server appends what one command moves in UID order, with no other mail arriving at the destination in between.
- MoveMail.MoveMessages: the pattern match that finds COPYUID in a response line is replaced by its three fields.
- GmailPacing.AttemptsAreBounded: the sleeps after transient server errors are not bounded by the deadline, only counted; a stretch between two awaits takes no time.
- The in-process row lease of the old worker path (`_acquire_sync_lease` and its renewal), which mutual exclusion is not about.
- Partial visibility of multi-row UPDATEs other than acquisition (release, refresh and recovery take effect on all their rows at once, when none is locked).
- IMAP, SMTP and Gmail traffic, OAuth, HTTP and MCP handlers, configuration and migrations: input and output.
- Full-text, regular-expression and lexical matching, serialisation of search results, signed cursors: the model starts from the matching rows and exact cursors.
- `measure_uploads`: a request whose recorded sizes pass the limit is refused before any slot is touched.
- MIME composition, content types, filenames, Content-IDs, text extraction and OCR.
- `writable_placement`, `_rate_limit`, flag and label normalisation, the grace-period reaper of tombstoned messages: short functions whose properties can be read off their bodies.
- The page-size adaptation of history listings, backoff persistence, health records and process groups.
