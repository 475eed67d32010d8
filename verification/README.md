# Corvus in Dafny

Corvus is a local agent workspace. This project models the parts of it that carry protocol obligations and proves what
they promise. Each module follows one source file, or one concern of it:

- `DeliveryState`, `Delivery`, `DeliveryRuns`: the write-ahead-journal transaction that applies a bundle of files, undoes
  it and recovers it. A `DeliveryManager` object is the durable state of one bundle (approval records, backups, journal);
  a `Destination` is shared by all bundles. Every durable write is one atomic step, and before each step a `Fate` decides
  whether the power fails, the step raises, or it takes effect and then raises, and what other processes edited meanwhile.
- `EventStream`, `Delegation`, `ChatRuns`: the conversation runtime. Each method is the code between two await points, and
  `Run` takes such steps in any order.
- `AuditCoordinator`, `AuditRuns`: starting, resuming and cancelling agent runs between two audit records, with
  adversarial ports; and any number of such operations over one chained audit log.
- `AuthorizationRecords`, `Authorization`, `AuthorizationMeaning`: the decision whether evidence and grants allow one
  action, and what an allowance means.
- `PathOrder`, `FileTree`, `Snapshot`, `ArchiveScan`, `PackageScan`: walks over a static tree of files.
- `JsonNormalizer`, `ProcessTree`: searches of graphs that may share nodes and contain cycles.
- `ProviderStream`: collecting a provider's stream with delayed redaction and aggregate limits.
- `TraceStore`: the hash-chained run events.
- `VerificationPolicy`, `RepairWorkflow`: planning the checks of a candidate, and the generate-verify-repair loop.

## Assumptions

- SHA-256 is an injective function whose range leaves out the all-zero genesis value; a digest is a datatype that holds
  what was hashed. Decrypting gives back what was encrypted. Signature checks, `fnmatch`, regular expressions, casefolding
  and the tar format are uninterpreted functions.
- Advisory file locks, the state lock and the store's write lock exclude each other's holders. Fresh identifiers do not
  repeat.
- `asyncio` raises a requested cancellation at the next resumption of the coroutine. Runners spawn only while their run
  executes, and honour cancellation; a parent that waits for its cancelled child is not cancelled a second time.
- Trees being scanned do not change during the scan. In a restore, checking a file and replacing it are one step.
- Attempt directories belong to the workflow that made them.

## Where the code falls short of its promise

- A reader of the event stream that asks for events after a number not reached yet has its cursor lowered while it waits
  (`corvus/conversations.py:403`), so it is handed events up to the number it gave. `EventStream.FutureSubscription`
  shows it; a subscription at or before the current number is the condition of `EventStream.Run`.
- A reader that reported a gap after which nothing matched tests for the closed runtime before it looks at the log again
  (`corvus/conversations.py:410`), so it can end without the last events: `EventStream.EndMisses` has the exact
  condition, and `EventStream.EndAfterGap` reaches it.
- A publication takes its number before its record is built (`corvus/conversations.py:729-737`), and a payload with a
  key that is no string passes the payload check but not the record. Such a number never gets an event:
  `EventStream.EventLog.ContiguousExactly` says when the log is contiguous all the same, and `EventStream.PhantomGap`
  shows a reader told of a gap although nothing was evicted.
- An authorized operation does not always attempt exactly one outcome record. None is attempted when a `BaseException`
  such as `asyncio.CancelledError` leaves the preflight or the runtime call (`AuditCoordinator.CancelledStart`). Two are
  attempted when the preflight refuses a start or resume and the check of the receipt for that failure raises, because
  the check is outside the `try` of `corvus/application/agent_runtime.py:672-682` and inside that of its callers
  (`AuditCoordinator.FailureRecordedTwice`). Elsewhere such a receipt makes the operation raise, with neither `ok` nor
  `audit_pending` (`AuditCoordinator.SuccessThatRaises`). `AuditCoordinator.OutcomeExactly` has the exact conditions.
- On a chained log shared by several operations, an outcome separated from its authorization by another record is not
  acknowledged: interleaved operations end with `audit_pending` (`AuditRuns.Operations.Run`).
- The coding workflow can end without a terminal event, or raise after one, also for the handled exception families: an
  exception escapes from the preparation of the prompt and the first three records (`RepairWorkflow.EscapesTooEarly`),
  when no handler knows it (`RepairWorkflow.EscapesUncaught`), from the record of the blocked run
  (`RepairWorkflow.EscapesNotRecorded`) and from the removal of the run directory (`RepairWorkflow.EscapesFromCleanup`).
  `RepairWorkflow.CodingWorkflow.Execute` proves that each happens exactly when its own step raises.
- The event chain has no key. Without a known head verification accepts exactly the chains that could have been built
  from their own entries (`TraceStore.VerifiedIsRebuilt`), so a rewritten chain passes (`TraceStore.RewritingPasses`).
  Among the rows of the original chain the loss of the newest ones is the one change that passes
  (`TraceStore.OnlyTruncationPasses`); against a known head no change does (`TraceStore.KeepsHead`).

## Model

| member | source | states |
|---|---|---|
| DeliveryState.DisciplineMeans | corvus/delivery.py:161-216 | over the whole trail of effects: a grant is consumed at most once, backups are begun at most once, a file is delivered or restored only after the grant of that operation was consumed, and a restored file held its baseline or its delivered content |
| DeliveryState.Append | corvus/delivery.py:200-216 | an effect permitted by the trail keeps the trail disciplined |
| DeliveryState.FirstConflict | corvus/delivery.py:535-542 | names a file that is not at its baseline, or all are |
| DeliveryState.NoConflict | corvus/delivery.py:539-541 | apply finds no conflict exactly when every changed file is at its baseline |
| DeliveryState.GrantsExactly | corvus/delivery.py:161-179 | the checks of grant and record pass exactly for an unexpired, unused grant of this bundle, actor and operation |
| DeliveryState.ConsumeInTrail | corvus/delivery.py:181-216 | consuming an approved grant keeps the trail and the approval records telling one story |
| DeliveryState.OthersKeep | corvus/delivery.py:696-729 | edits by others leave the invariant of the disk, and what it says of untouched files, standing |
| DeliveryState.DeliverKeeps | corvus/delivery.py:588-600 | replacing an announced file by its payload keeps journal and destination in agreement, so a crash right after it is recoverable |
| DeliveryState.RestoreKeeps | corvus/delivery.py:708-725 | putting a file back keeps journal and destination in agreement |
| DeliveryState.CheckpointIsOriginal | corvus/delivery.py:711-722 | a backup that passes its digest check is the original content; an undamaged one passes |
| DeliveryState.AllowedMeans | corvus/delivery.py:703-710 | the two digests compared before a restore admit exactly the baseline and the delivered content |
| DeliveryState.FirstUndoConflict | corvus/delivery.py:650-656 | names a changed file that no longer holds what was delivered, or all do |
| DeliveryState.NoUndoConflict | corvus/delivery.py:650-656 | undo finds no conflict exactly when every changed file holds its payload |
| DeliveryState.FinalMeansAllOrNothing | corvus/delivery.py:675-694 | a final journal means that all files nobody else edited are delivered, or all are original |
| DeliveryState.AppliedFits | corvus/delivery.py:601-612 | sealing as applied is right once every file is journalled as delivered |
| DeliveryState.UndoingFits | corvus/delivery.py:657-661 | the durable undo intent keeps the invariant |
| DeliveryState.FinishFits | corvus/delivery.py:726-729 | sealing as rolled back is right once every file is pending or restored |
| Delivery.DeliveryManager.Tick | corvus/delivery.py:99-113 | the environment's turn before a durable step touches only what it records as touched |
| Delivery.DeliveryManager.PutJournal | corvus/delivery.py:104-112 | a journal write either happened or did not |
| Delivery.DeliveryManager.Consume | corvus/delivery.py:181-198 | only moves one grant from approved to consumed |
| Delivery.DeliveryManager.Claim | corvus/delivery.py:200-216 | refuses with nothing changed, or the grant is consumed |
| Delivery.DeliveryManager.ConsumeIfApproved | corvus/delivery.py:181-198 | passes over unusable records; afterwards a fitting grant is consumed |
| Delivery.DeliveryManager.Fault | corvus/delivery.py:99-101 | a fault point may stop the call but writes nothing |
| Delivery.DeliveryManager.AnnounceFile | corvus/delivery.py:588-594 | a file away from its baseline is refused with nothing changed; otherwise it is journalled as writing |
| Delivery.DeliveryManager.DeliverFile | corvus/delivery.py:595 | the file holds its payload, the journal is as it was |
| Delivery.DeliveryManager.WriteFile | corvus/delivery.py:595-601 | the file is replaced, and journalled as delivered only if what arrived is the payload |
| Delivery.DeliveryManager.DeliverEach | corvus/delivery.py:587-601 | every file of the journal delivered, in order, or the journal still applying |
| Delivery.DeliveryManager.DeliverOne | corvus/delivery.py:584-600 | one file: baseline checked, writing journalled, replaced, verified, delivered journalled; on a failure the journal differs in file states only |
| Delivery.DeliveryManager.DeliverFiles | corvus/delivery.py:583-613 | every file delivered and the journal sealed as applied, or a journal still applying |
| Delivery.DeliveryManager.DeliverOrRestore | corvus/delivery.py:583-617 | a failed delivery that nobody interfered with is rolled back, every file original again, unless a second step failed; the status applying survives only if the first write of the restore failed |
| Delivery.DeliveryManager.CheckAndRestore | corvus/delivery.py:700-722 | conflicts exactly when the file holds neither baseline nor delivered content, and then writes nothing |
| Delivery.DeliveryManager.RestoreFile | corvus/delivery.py:708-724 | the file holds its original; a conflict only on a file somebody else edited |
| Delivery.DeliveryManager.RestoreOne | corvus/delivery.py:700-725 | one file restored and journalled; a conflict only on a file somebody else edited |
| Delivery.DeliveryManager.RestoreEach | corvus/delivery.py:700-725 | in reverse order, every file that is not pending is restored |
| Delivery.DeliveryManager.Restore | corvus/delivery.py:696-729 | ends rolled back, or rolling back with only file states changed; completes when nothing interferes |
| Delivery.DeliveryManager.ReadDestination | corvus/delivery.py:534-542 | the originals of all changed files, or the first conflict |
| Delivery.DeliveryManager.MakeBackupDirectory | corvus/delivery.py:544-545 | made once, with nothing else changed |
| Delivery.DeliveryManager.WriteBackup | corvus/delivery.py:547-562 | a pending item whose backup, if there was a file, decrypts to the original |
| Delivery.DeliveryManager.Intend | corvus/delivery.py:564-580 | the intent is durable before the grant is consumed |
| Delivery.DeliveryManager.BeginApplying | corvus/delivery.py:581-584 | the status applying only on a consumed grant |
| Delivery.DeliveryManager.WriteBackups | corvus/delivery.py:546-562 | a journal item and, where there was a file, an encrypted backup for every changed file |
| Delivery.DeliveryManager.Allowed | corvus/delivery.py:524-545 | apply goes ahead exactly on a fitting grant, intact artifacts, the key, every file at its baseline and no earlier apply |
| Delivery.DeliveryManager.Prepare | corvus/delivery.py:544-584 | nothing is delivered before the status applying; a failure leaves the destination as it was and every file pending |
| Delivery.DeliveryManager.CarryOutApply | corvus/delivery.py:544-617 | done, or failed cleanly |
| Delivery.DeliveryManager.Apply | corvus/delivery.py:517-617 | goes ahead exactly when it may, and refuses with nothing changed otherwise; before the journal exists the destination is untouched; done means every untouched file is delivered and a receipt seals the journal; a failure with one failing step leaves every file original; without interference it is done |
| Delivery.DeliveryManager.UndoAllowed | corvus/delivery.py:636-656 | undo goes ahead exactly on a fitting grant for this receipt, a journal still applied and every file still delivered |
| Delivery.DeliveryManager.CarryOutUndo | corvus/delivery.py:657-669 | rolled back, or stopped by exactly one failing step unless somebody interfered |
| Delivery.DeliveryManager.Undo | corvus/delivery.py:629-669 | goes ahead exactly when it may, and refuses with nothing changed otherwise; done means every untouched file is original again |
| Delivery.DeliveryManager.RollBack | corvus/delivery.py:688-693 | the grant of the journalled operation is consumed before anything is restored |
| Delivery.DeliveryManager.Recover | corvus/delivery.py:675-694 | a final journal is left alone; otherwise done means all files delivered or all original; without interference it is done |
| Delivery.DeliveryManager.PutRecord | corvus/delivery.py:448-450 | the record is there, or nothing changed |
| Delivery.DeliveryManager.Approve | corvus/delivery.py:422-451 | one new approved record bound to this bundle, or nothing |
| Delivery.DeliveryManager.ApproveUndo | corvus/delivery.py:453-492 | only for an applied journal, and bound to its receipt |
| DeliveryRuns.Run | corvus/delivery.py:507-694 | over any calls with any crashes the invariant holds and grants only ever move from approved to consumed |
| DeliveryRuns.RunThenRecover | corvus/delivery.py:675-694 | crash atomicity: after any such run an undisturbed recovery settles with every file delivered or every file original, and recovering again leaves exactly that state |
| DeliveryRuns.ApplyThenUndo | corvus/delivery.py:517-669 | apply then undo gives back the whole destination |
| DeliveryRuns.UndoTooEarly | corvus/delivery.py:650-656 | undo after a delivered file was replaced is refused with no file and no journal changed |
| DeliveryRuns.StackedUndo | corvus/delivery.py:629-729 | two bundles over a common file: undoing the first is refused, undoing the second and then the first restores the destination |
| DeliveryRuns.FailedApply | corvus/delivery.py:517-617 | when one step raises, wherever in apply, and nobody interferes, the whole destination is as it was and the journal is rolled back or has nothing delivered |
| EventStream.EventLog.Publish | corvus/conversations.py:719-739 | the next number is taken in any case; the event is appended, and the oldest evicted if need be, exactly if its record can be built |
| EventStream.EventLog.OldestMeans | corvus/conversations.py:383 | between the last event evicted and the oldest retained there are only numbers without an event |
| EventStream.EventLog.ContiguousExactly | corvus/conversations.py:729-737 | the retained log is a contiguous run of numbers ending at the latest exactly as long as every record since the oldest retained could be built |
| EventStream.EventLog.GapIsEviction | corvus/conversations.py:383-394 | a gap ends with the last event evicted exactly if the number before the oldest retained event had an event |
| EventStream.FilteredIsMatching | corvus/conversations.py:395-399 | the batch condition picks every matching event of a range above the cursor |
| EventStream.AllMatching | corvus/conversations.py:729-737 | where every number has an event, and only there, as many events as numbers, in order |
| EventStream.EventLog.Select | corvus/conversations.py:395-399 | the batch is every matching event of the history above the cursor, unless one was evicted |
| EventStream.FindFirst | corvus/conversations.py:395-399 | the first matching event of a range, with nothing matching before it |
| EventStream.PublishKeepsReader | corvus/conversations.py:728-739 | publishing and evicting never disturb a suspended reader |
| EventStream.Extend | corvus/conversations.py:405-409 | handing out the next event or marker keeps everything passed accounted for |
| EventStream.Advance | corvus/conversations.py:402-404 | skipping irrelevant events loses nothing |
| EventStream.ExactlyOnce | corvus/conversations.py:369-411 | every matching event the cursor passed was handed out exactly once or lies in exactly one reported gap, and numbers strictly increase |
| EventStream.HandOutFits | corvus/conversations.py:407-409 | handing out the first of the batch leaves the reader's account and the rest of the batch right |
| EventStream.GapFits | corvus/conversations.py:384-394 | a gap marker accounts for everything up to the oldest retained event |
| EventStream.Reader.HandOut | corvus/conversations.py:407-409 | the first event of the batch |
| EventStream.Reader.Scan | corvus/conversations.py:381-404 | under the condition: a marker, the first matching event, a wait with the cursor at the latest number, or the end |
| EventStream.Reader.ReportGap | corvus/conversations.py:384-394 | the marker first, and then whatever retained events match |
| EventStream.Reader.Poll | corvus/conversations.py:395-404 | without a gap: the first matching event, a wait, or the end |
| EventStream.Reader.Sleep | corvus/conversations.py:402-404 | the cursor goes to the latest number, back if need be |
| EventStream.Reader.Resume | corvus/conversations.py:378-411 | hands out what is due: the rest of the batch, a gap marker, or the first matching event above the cursor |
| EventStream.AccountsComplete | corvus/conversations.py:369-411 | an account in order hands out only the reader's events, as published, and each event of its range once or in one gap |
| EventStream.Run | corvus/conversations.py:369-411 | for any interleaving of publications, failed ones included, evictions and a reader subscribed at or before the current number: only events of its chat, in order, and every such event of the range handed out exactly once or in exactly one gap |
| EventStream.FutureSubscription | corvus/conversations.py:402-404 | a subscription beyond the current number is handed an event it did not ask for |
| EventStream.PhantomGap | corvus/conversations.py:383-394 | a failed first publication makes a reader from the beginning see a gap in which nothing was lost |
| EventStream.EndMisses | corvus/conversations.py:405-411 | a resumption that ends a reader leaves something due exactly when the reader was suspended right after a gap marker with nothing behind it, the runtime closed and something due |
| EventStream.MissTail | corvus/conversations.py:405-411 | such a reader ends without a matching event published meanwhile |
| EventStream.EndAfterGap | corvus/conversations.py:405-411 | such a suspension is reached for every retention limit |
| Delegation.StateChange | corvus/conversations.py:619-683 | a child changing state leaves cost and count alone and moves the number executing by itself |
| Delegation.SetChildKeeps | corvus/conversations.py:619-683 | a child starting or ending with its permit keeps the invariant |
| Delegation.CancelKeeps | corvus/conversations.py:684-690 | cancelling a scope's tasks keeps the invariant |
| Delegation.AdmitKeeps | corvus/conversations.py:574-599 | admitting a child keeps the books exact and within the limits |
| Delegation.FlipKeeps | corvus/conversations.py:313-317 | every live child's scope is on the list a revocation takes |
| Delegation.VisitKeeps | corvus/conversations.py:318-320 | visiting a scope moves its live children to the awaited ones |
| Delegation.RevocationComplete | corvus/conversations.py:312-330 | when a revocation returns no earlier child lives, and without a new grant none was admitted since |
| Delegation.CloseStrandsNobody | corvus/conversations.py:506-509 | a scope let go has no live child |
| Delegation.ConversationRuntime.BeginRun | corvus/conversations.py:439-442 | a fresh run starts with a fresh scope |
| Delegation.ConversationRuntime.Spawn | corvus/conversations.py:560-599 | admits exactly a main run with a prompt in bounds, a positive cost, delegation enabled, and room in count and budget; anything else is refused with nothing changed |
| Delegation.ConversationRuntime.Start | corvus/conversations.py:619 | a waiting child that was not cancelled takes a permit; never more children execute than the semaphore admits |
| Delegation.Cancelled | corvus/conversations.py:684-690 | exactly the listed tasks are marked, and nothing else about them changes |
| Delegation.ConversationRuntime.Stop | corvus/conversations.py:619-683 | an executing child gives its permit back |
| Delegation.ConversationRuntime.Discard | corvus/conversations.py:606-608 | a finished child leaves the task list, its cost stays reserved |
| Delegation.ConversationRuntime.EndRun | corvus/conversations.py:506-507 | the run's remaining tasks are cancelled |
| Delegation.ConversationRuntime.Grant | corvus/conversations.py:312-316 | counts as a new grant only if it flips the flag |
| Delegation.ConversationRuntime.VisitNext | corvus/conversations.py:318-320 | the next scope's tasks are cancelled and awaited |
| Delegation.ConversationRuntime.Revoke | corvus/conversations.py:312-319 | flips and lists the scopes in one step, or returns at once |
| Delegation.ConversationRuntime.ReturnFromRevoke | corvus/conversations.py:318-330 | the promise of a completed revocation, in the runtime's own state |
| Delegation.ConversationRuntime.CloseRun | corvus/conversations.py:506-509 | a run that ended leaves all its children stopped |
| Delegation.SomeCostNoMore | corvus/conversations.py:572-586 | no choice of children costs more than all of them |
| Delegation.WithinBudget | corvus/conversations.py:579-586 | any of a run's children, finished or not, together stay within the budget |
| Delegation.Run | corvus/conversations.py:560-690 | in every reachable state reserved cost and count are the totals over all children ever admitted and within the limits, nothing reserved is given back, and executing children are within the semaphore |
| ChatRuns.AppendIsSuffix | corvus/conversations.py:444 | a bounded deque of the whole conversation stays its suffix |
| ChatRuns.AcceptFits | corvus/conversations.py:278-286 | accepting a message conserves messages and limits |
| ChatRuns.TakeFits | corvus/conversations.py:426-444 | taking the oldest message conserves messages in order and extends the context |
| ChatRuns.BeginFits | corvus/conversations.py:453-465 | the history given to a run is a bounded suffix ending with its own message |
| ChatRuns.ReplyFits | corvus/conversations.py:469-478 | a reply joins the context of the runs after it |
| ChatRuns.TerminateFits | corvus/conversations.py:488-505 | terminal events come at most once per run |
| ChatRuns.CancelFits | corvus/conversations.py:692-704 | cancelling drops exactly what is queued |
| ChatRuns.RecordTells | corvus/conversations.py:438-512 | no run has two terminal events, and run k was given a bounded suffix of the first k+1 messages accepted with the replies before its own |
| ChatRuns.UpdateFits | corvus/conversations.py:453 | permits and holding chats add up to the semaphore |
| ChatRuns.ChatRuntime.CreateChat | corvus/conversations.py:241-266 | within the chat limit, a fresh chat |
| ChatRuns.ChatRuntime.SendMessage | corvus/conversations.py:268-299 | appends exactly a message in bounds to a living chat with room, in an open runtime; a rejection changes nothing and names what is the case |
| ChatRuns.LastOfIsLongest | corvus/conversations.py:257-258 | a bounded deque keeps everything, or as much as its limit |
| ChatRuns.ChatRuntime.TakeMessage | corvus/conversations.py:429-444 | the oldest message, and no other, leaves the queue and joins the context |
| ChatRuns.ChatRuntime.Announced | corvus/conversations.py:445-453 | a queued run waits for the semaphore |
| ChatRuns.ChatRuntime.FinishRun | corvus/conversations.py:506-512 | a cancelled chat's worker ends, any other waits for its next message |
| ChatRuns.ChatRuntime.Close | corvus/conversations.py:413-417 | a closing runtime accepts nothing |
| ChatRuns.ChatRuntime.BeginRun | corvus/conversations.py:453-465 | takes a permit, and hands the runner the bounded suffix of the conversation |
| ChatRuns.ChatRuntime.RunnerReplied | corvus/conversations.py:468-487 | a reply in bounds joins the conversation, any other one fails the run |
| ChatRuns.ChatRuntime.EndRun | corvus/conversations.py:488-505 | one terminal event, and the permit is given back |
| ChatRuns.ChatRuntime.Strike | corvus/conversations.py:506-512 | cancellation outside the runner ends the run without a terminal event |
| ChatRuns.ChatRuntime.CancelChat | corvus/conversations.py:692-717 | the chat is cancelled and its queue dropped, once |
| ChatRuns.Run | corvus/conversations.py:268-512 | under any interleaving messages are conserved in order, active runs stay within the semaphore, and a cancelled chat takes and starts nothing more |
| AuditCoordinator.NoMismatchIsBound | corvus/application/agent_runtime.py:488-547 | the checks pass exactly on a decision that carries every value of the request, in time |
| AuditCoordinator.DisciplineMeans | corvus/application/agent_runtime.py:148-407 | in a disciplined trace the runtime is called at most once and only after an acknowledged allow event; a second outcome comes only right after a failure whose check raised, in an operation without an effect, and there is no third |
| AuditCoordinator.AuthorizationGate | corvus/application/agent_runtime.py:409-485 | authorizes exactly when an allowing, bound decision was recorded and acknowledged; raises exactly when the check of the receipt does |
| AuditCoordinator.RecordOutcome | corvus/application/agent_runtime.py:664-687 | recorded exactly when the outcome was acknowledged right after its authorization; an exception of the check leaves, one of the recording does not |
| AuditCoordinator.AttemptKeeps | corvus/application/agent_runtime.py:664-687 | one more attempt, the first or a retried failure, keeps the trace disciplined |
| AuditCoordinator.Conclude | corvus/application/agent_runtime.py:631-662 | one more outcome attempt; a completed result is ok exactly on success with an acknowledged outcome, pending exactly on an unacknowledged one; raises exactly when the check of the receipt does |
| AuditCoordinator.SuccessMeans | corvus/application/agent_runtime.py:148-407 | an effect is a success exactly when the runtime answered for the run, binding and handle it was asked about |
| AuditCoordinator.OutcomeExactly | corvus/application/agent_runtime.py:148-407 | exactly when one outcome is attempted, when the result is pending, and when it is ok |
| AuditCoordinator.Finish | corvus/application/agent_runtime.py:168-221 | after the authorization: no attempt, one or two, and a result, an exception or an abort, each under its exact condition |
| AuditCoordinator.CoherentExactly | corvus/application/agent_runtime.py:420-432 | the request validates exactly when its workspace, scope, snapshot, handle and proofs fit one another and the operation |
| AuditCoordinator.AuthorizedExactly | corvus/application/agent_runtime.py:409-485 | an operation is authorized exactly by a decision allowing this very request and a receipt that acknowledges the allow event with digests that cover it |
| AuditCoordinator.SucceedsExactly | corvus/application/agent_runtime.py:178-407 | what counts as success, with its handle and reason |
| AuditCoordinator.FailureReasons | corvus/application/agent_runtime.py:168-385 | the reason and handle a failure is recorded with |
| AuditCoordinator.OkExactly | corvus/application/agent_runtime.py:200-221 | ok exactly when the effect succeeded and an acknowledged success receipt follows the authorization in sequence and digest |
| AuditCoordinator.Operate | corvus/application/agent_runtime.py:148-407 | for any ports, in their fields: authorized exactly by an allowing decision and an acknowledging receipt; the runtime called exactly then, after a clean preflight; ok exactly on a success received right behind; two attempts exactly on a refused preflight whose receipt cannot be checked |
| AuditCoordinator.CancelledStart | corvus/application/agent_runtime.py:168-213 | an aborted runtime call leaves an effect without an outcome attempt |
| AuditCoordinator.FailureRecordedTwice | corvus/application/agent_runtime.py:168-188 | a refused start or resume records its failure twice when the check of the first receipt raises |
| AuditCoordinator.SuccessThatRaises | corvus/application/agent_runtime.py:280-298 | a successful resume raises when the check of its receipt does |
| AuditCoordinator.ChainedLog.Append | corvus/application/agent_runtime.py:690-717 | an honest chained log acknowledges every event |
| AuditCoordinator.AcknowledgedIsAdjacent | corvus/application/agent_runtime.py:705-717 | on a chained log an outcome is acknowledged exactly when it directly follows its authorization |
| AuditRuns.CompletedFits | corvus/application/agent_runtime.py:664-717 | over an honest log an operation is ok exactly when its effect succeeded and its outcome directly follows its authorization, and pending exactly when there was an outcome and it does not |
| AuditRuns.Operations.Begin | corvus/application/agent_runtime.py:409-485 | the gate of one operation takes at most one slot of the log |
| AuditRuns.Operations.Complete | corvus/application/agent_runtime.py:148-407 | the rest of an operation takes at most one more slot |
| AuditRuns.Operations.Run | corvus/application/agent_runtime.py:148-407 | any interleaving of any number of operations keeps every operation's slots its own and its result what the slots say |
| AuditRuns.Operations.OkSlotsDisjoint | corvus/application/agent_runtime.py:705-717 | operations that ended ok hold disjoint pairs of adjacent slots, each with its own authorization and outcome |
| Authorization.AuthorityExact | corvus/application/authorization.py:1068-1194 | sealed-local authority that passes once passes again exactly within its windows, and its possession window is at most thirty seconds |
| Authorization.CredentialExact | corvus/application/authorization.py:712-813 | so do credential reference and proof |
| Authorization.BudgetExact | corvus/application/authorization.py:816-893 | so does the budget proof |
| Authorization.EntriesExact | corvus/application/authorization.py:935-959 | so do the kill-switch entries, one by one |
| Authorization.KillExact | corvus/application/authorization.py:896-959 | so does the kill-switch proof as a whole |
| Authorization.AudienceExact | corvus/application/authorization.py:962-1010 | so do audience and client |
| Authorization.IntersectionExact | corvus/application/authorization.py:1273-1442 | so do bundles, agent grant and delegation |
| Authorization.AllowedExactlyInWindow | corvus/application/authorization.py:1227-1442 | evidence that allows at one time allows at another exactly when that time is in every window |
| Authorization.WindowIsBoundedAndConvex | corvus/application/authorization.py:1227-1442 | the times at which fixed evidence allows form an interval shorter than thirty seconds |
| Authorization.EvidenceAllowsOnePurpose | corvus/application/authorization.py:690-1194 | two requests allowed on the same evidence agree on everything the evidence is bound to, the budget included unless one of them is a cancellation |
| Authorization.AuthorityBinds | corvus/application/authorization.py:1068-1194 | passing authority evidence determines the authority fields of the request |
| Authorization.BudgetBinds | corvus/application/authorization.py:816-893 | passing budget evidence determines the budget fields of the request |
| Authorization.StagesBind | corvus/application/authorization.py:690-1010 | passing placement, credential, kill-switch and audience evidence determines theirs |
| Authorization.OrderAndRepetitionIrrelevant | corvus/application/authorization.py:1201-1224 | order and repetition of grants never change the result |
| Authorization.StricterGrantsOnlyDeny | corvus/application/authorization.py:1397-1422 | more denials or fewer allowances only turn an allowance into a denial |
| Authorization.AllowanceRestsOnBothSides | corvus/application/authorization.py:1273-1442 | an allowance names the one action, rests on an allowance on both sides with no denial on either, and if delegated on the delegation and the parent agent's own bundle |
| AuthorizationMeaning.AllowedExactly | corvus/application/authorization.py:1227-1442 | a request is allowed exactly when authority, placement, credential, budget, kill switches, rights and audience all stand, each in its own fields, and then for its one action |
| AuthorizationMeaning.AuthorityMeans | corvus/application/authorization.py:1068-1194 | instance, authority, credential and anchor active, commit finalized, manifest consistent, possession signed by both keys within thirty seconds, lease held |
| AuthorizationMeaning.ManifestMeans | corvus/application/authorization.py:652-687 | an active manifest with consistent, unambiguous families that list every mutable one |
| AuthorizationMeaning.PossessionMeans | corvus/application/authorization.py:1013-1065 | both signatures verify over a current proof for this request that holds the lock |
| AuthorizationMeaning.PlacementMeans | corvus/application/authorization.py:690-709 | the claimed placement, neither revoked nor unavailable, or none at all |
| AuthorizationMeaning.CredentialMeans | corvus/application/authorization.py:712-813 | a current credential proved for this very use with uses left, or none at all |
| AuthorizationMeaning.BudgetMeans | corvus/application/authorization.py:816-893 | a verified running budget with the amount and some runtime left, or none at all |
| AuthorizationMeaning.EntriesMean | corvus/application/authorization.py:942-959 | every entry is clear, current and the one bound |
| AuthorizationMeaning.SwitchesMean | corvus/application/authorization.py:896-959 | every switch of a complete hierarchy with workspace and agent is clear |
| AuthorizationMeaning.RightsMean | corvus/application/authorization.py:1273-1442 | requester and agent hold the right in standing bundles with no denial, and a delegation passes the parent's own |
| AuthorizationMeaning.AudienceMeans | corvus/application/authorization.py:962-1010 | the audience admits the requester and the client is the one named on an enabled surface |
| FileTree.WalkEnd | corvus/snapshot.py:232-246 | a worklist walk that runs dry has seen exactly what lies below entered directories |
| FileTree.TotalAdds | corvus/snapshot.py:267 | a sum of sizes does not depend on the order of adding |
| FileTree.ComingIsReached | corvus/snapshot.py:232-246 | a walk comes across nothing below a pruned directory |
| PathOrder.Sort | corvus/snapshot.py:278 | the sorted list of the same paths |
| PathOrder.PosixInjective | corvus/snapshot.py:277 | two paths with one written form are one path |
| PathOrder.LeqMeans | corvus/snapshot.py:278 | strings in the order of their first difference, a prefix first |
| PathOrder.OrderedUnique | corvus/sandbox.py:274 | a set of paths has one sorted listing |
| Snapshot.SeeEntry | corvus/snapshot.py:235-277 | one entry refused only if the tree is not admissible, and otherwise counted and copied as the filters say |
| Snapshot.WalkSource | corvus/snapshot.py:230-277 | the pruned walk copies exactly the files the recursive filters select, and succeeds exactly within every bound |
| Snapshot.SeeFile | corvus/snapshot.py:258-277 | a file that passes the filters is copied and counted, or shows the tree is not admissible |
| Snapshot.TooMany | corvus/snapshot.py:261-268 | a file that does not fit beside those copied shows the tree is not admissible |
| Snapshot.AllSeen | corvus/snapshot.py:230-281 | once all reached entries are seen, what was copied is what the filters select |
| Snapshot.ListKeys | corvus/snapshot.py:278 | every copied path once |
| Snapshot.MetExactly | corvus/snapshot.py:232-246 | the walk meets exactly what lies below directories neither excluded nor ignored |
| Snapshot.TakesExactly | corvus/snapshot.py:247-257 | a file is selected exactly if no part of its path is excluded, its name is not, it is included if anything is, and nothing on its path is ignored |
| Snapshot.AcceptableExactly | corvus/snapshot.py:235-277 | every limit, in plain terms |
| Snapshot.ListedAll | corvus/snapshot.py:277-281 | each copied file with its size and hash, once, in order |
| Snapshot.CreateSnapshot | corvus/snapshot.py:206-281 | copies and lists exactly the files the filters take, exactly on trees within every limit, sorted, with size, hash, total and digest |
| Snapshot.OneListing | corvus/snapshot.py:151-157 | listing and digest depend only on the map from paths to content |
| Snapshot.DigestSeparates | corvus/snapshot.py:151-157 | different content has a different digest |
| Snapshot.CopyComesFromSource | corvus/snapshot.py:269-277 | every entry of the copy is an entry the walk came across in the source, of the same kind |
| Snapshot.CopySelectsAll | corvus/workflow.py:164-166 | the filters select everything that was copied |
| Snapshot.SnapshotOfSnapshot | corvus/workflow.py:164-166 | the copy is a tree that the same policy admits and selects whole |
| Snapshot.Resnapshot | corvus/workflow.py:157-166 | snapshotting a snapshot succeeds with the same files and digest |
| ArchiveScan.BoundedBytes.Write | corvus/sandbox.py:85-96 | refuses exactly the write that would pass the limit |
| ArchiveScan.SeeEntry | corvus/sandbox.py:234-269 | one entry counted, or a limit of the whole tree is exceeded |
| ArchiveScan.ScanTree | corvus/sandbox.py:213-269 | for any listing order the worklist ends, having seen every entry once |
| ArchiveScan.WriteMembers | corvus/sandbox.py:271-327 | the archive holds every member, or would pass its limit |
| ArchiveScan.ArchiveSource | corvus/sandbox.py:202-327 | accepts exactly the trees without links or special entries that are inside all limits, and archives each file once in sorted order |
| ArchiveScan.OneCapture | corvus/sandbox.py:274 | two scans capture the same members in the same order |
| PackageScan.AddAncestors | corvus/codex_install.py:517-521 | exactly the proper ancestors of one path |
| PackageScan.ReadManifest | corvus/codex_install.py:511-521 | the expected files, and exactly the proper ancestors as directories |
| PackageScan.ScanPackage | corvus/codex_install.py:523-546 | all files and directories, unless there is a link or special entry |
| PackageScan.VerifyInstalledPackage | corvus/codex_install.py:505-561 | accepts exactly the tree that is the pinned release |
| JsonNormalizer.OneUnfolding | corvus/security.py:67-107 | an object has at most one unfolding |
| JsonNormalizer.WalkDown | corvus/security.py:67-107 | along a path everything unfolds, to ever smaller trees |
| JsonNormalizer.NeverTwice | corvus/security.py:85-97 | nothing that unfolds meets itself again |
| JsonNormalizer.Normalizer.NormalizeContainer | corvus/security.py:84-106 | a container inside itself is refused; the active set is as before on every way out |
| JsonNormalizer.UnfoldingMeansAcceptable | corvus/security.py:67-107 | what unfolds reaches no cycle, no bad leaf and no bad key |
| JsonNormalizer.Normalizer.Normalize | corvus/security.py:67-107 | returns the unfolding, or an error that a path from the outermost value shows; the active set is as before on every way out |
| JsonNormalizer.Normalizer.NormalizeEntries | corvus/security.py:89-95 | the same for the entries of a mapping, keys checked one by one |
| JsonNormalizer.Normalizer.NormalizeElements | corvus/security.py:103-104 | the same for the items of a sequence |
| JsonNormalizer.NormalizeValue | corvus/security.py:67-107 | terminates on every graph, and succeeds exactly when every reachable leaf and key is acceptable and no cycle is reachable |
| ProcessTree.DescendantPids | corvus/safe_process.py:311-322 | terminates, cycles or not, with exactly the pids reachable in one or more child steps, without the root |
| ProcessTree.ClosedHoldsChain | corvus/safe_process.py:314-321 | a set closed under child steps holds the end of every chain |
| ProviderStream.BufferCharacters | corvus/security.py:318-328 | at most the maximum, and otherwise at least 512 and 64 beyond the longest secret |
| ProviderStream.SafePrefixLength | corvus/security.py:330-344 | the longest cut that keeps the buffer and splits no match reaching the end of the text |
| ProviderStream.Utf8LengthMeans | corvus/providers.py:144 | one byte a character, and one more from 0x80, 0x800 and 0x10000 on |
| ProviderStream.IncrementalRedactor.Push | corvus/providers.py:76-85 | slice and rest are the text in order, and the slice is the longest safe cut |
| ProviderStream.IncrementalRedactor.Finish | corvus/providers.py:87-89 | all pending text is redacted |
| ProviderStream.BoundText | corvus/security.py:346-368 | never longer than allowed, cut short exactly when it must be, and then marked |
| ProviderStream.Collector.Emit | corvus/providers.py:140-161 | nothing is shown beyond the emitted and persisted limits |
| ProviderStream.Collector.Charge | corvus/providers.py:144-155 | proceeds only while everything shown stays within the emitted and persisted limits |
| ProviderStream.Collector.Count | corvus/providers.py:169-172 | proceeds only while everything received stays within its limits |
| ProviderStream.Collector.Flush | corvus/providers.py:179 | nothing stays pending |
| ProviderStream.Collector.Consume | corvus/providers.py:163-192 | the whole stream was passed on in order, with the final flush |
| ProviderStream.Collector.TakeText | corvus/providers.py:165-174 | everything received was passed on in order or is pending |
| ProviderStream.Collector.TakeEvent | corvus/providers.py:176-191 | all text before an event is shown before it |
| ProviderStream.ShownWithin | corvus/providers.py:140-161 | redaction that lengthens nothing never shows more than the text of the stream |
| ProviderStream.NothingToBlame | corvus/providers.py:140-191 | inside all limits and with nothing raising there is no cause to fail |
| ProviderStream.Collector.Collect | corvus/providers.py:116-216 | success means the raw slices are the stream in order, every aggregate limit held and the text fits the persisted limits; every failure has its cause in the stream, in a callback, in a slice that would show too much or cannot be encoded, or in the last redaction; failing or not, what was shown stays within the limits and true to the stream |
| ProviderStream.CollectWithin | corvus/providers.py:116-216 | a stream inside all limits, with nothing raising, is collected |
| ProviderStream.TextBeforeEvent | corvus/providers.py:176-179 | an event is exposed after exactly the text that came before it |
| ProviderStream.SliceMoves | corvus/providers.py:76-85 | a push moves text from pending to the slice and loses none |
| TraceStore.EventsAscend | corvus/store.py:313-317 | the events of a run come in strictly ascending order |
| TraceStore.EventsOf | corvus/store.py:313-317 | exactly the rows of the run |
| TraceStore.KeepsHead | corvus/store.py:332-355 | a verified table whose head is that of an honest run is that run |
| TraceStore.HeadDeterminesChain | corvus/store.py:332-355 | two verified chains with the same head are the same, event for event |
| TraceStore.RebuiltVerifies | corvus/store.py:332-355 | a chain built anew from any entries verifies and holds these entries |
| TraceStore.VerifiedIsRebuilt | corvus/store.py:332-355 | without a known head, verified means exactly that the hashes are those of a chain built from these entries |
| TraceStore.RewritingPasses | corvus/store.py:332-355 | a chain rebuilt from changed entries passes, with another head |
| TraceStore.OnlyTruncationPasses | corvus/store.py:332-355 | rows of a verified chain pass by themselves exactly when they are the chain up to some event |
| TraceStore.AppendKeeps | corvus/store.py:137-176 | an append extends its own run by one linked event and leaves the others |
| TraceStore.ChainedIsUnique | corvus/store.py:34-43 | the uniqueness constraints never refuse an append |
| TraceStore.Store.Append | corvus/store.py:131-186 | the row is the next number of its run, and every run stays chained |
| TraceStore.Store.Verify | corvus/store.py:332-355 | true exactly for a chain that is not empty and linked throughout, on any table |
| TraceStore.Store.AppendAll | corvus/store.py:131-186 | for any interleaving over many runs each run holds what was appended to it, numbered from one, and verifies |
| TraceStore.VerifyAfterTampering | corvus/store.py:332-355 | a rewritten table that verifies with the same head holds what was appended |
| VerificationPolicy.DistinctMeans | corvus/verification.py:71-89 | nothing twice, nothing lost, and every command under the source that offered it first |
| VerificationPolicy.DistinctOfMore | corvus/verification.py:91-98 | further offers change nothing that was planned |
| VerificationPolicy.Planner.Add | corvus/verification.py:71-89 | a command is planned once, or the whole set of offers has no plan |
| VerificationPolicy.Planner.AddAll | corvus/verification.py:91-98 | one group of offers, in order |
| VerificationPolicy.FitsExactly | corvus/verification.py:54-60 | a command is well formed exactly if it is not empty, not too long and has no empty argument |
| VerificationPolicy.FitsInPlan | corvus/verification.py:76-89 | a plan holds well-formed commands only |
| VerificationPolicy.MakePlan | corvus/verification.py:62-99 | plans exactly the distinct offers, exactly when every command is well formed and they are within the limit |
| VerificationPolicy.TrustedAlwaysPlans | corvus/verification.py:36-52 | an accepted policy alone always has a plan, and not an empty one |
| VerificationPolicy.TrustedPlanIsPrefix | corvus/verification.py:91-99 | for any suggestions the plan starts with the policy's own plan and goes on with optional checks |
| VerificationPolicy.PlanHasNoRepeats | corvus/verification.py:77-89 | no command and no criterion appears twice |
| VerificationPolicy.TrustedStaysRequired | corvus/verification.py:91-98 | suggestions can neither remove nor demote a trusted command |
| VerificationPolicy.CompletionMeansPassed | corvus/verification.py:157-160 | completion is allowed exactly when the command of every required criterion exited with zero |
| RepairWorkflow.ApplicableExactly | corvus/workflow.py:405-416 | a candidate can be written exactly if its paths are relative, without "..", not excluded, and none is a directory of another |
| RepairWorkflow.ApplyCandidate | corvus/workflow.py:403-417 | succeeds exactly then, and gives the source with the candidate on top; nothing with a ".." part or an excluded path gets into the tree |
| RepairWorkflow.WriteOver | corvus/workflow.py:405-417 | one more file can be written exactly when its path is safe and clashes with none, and then holds its last content |
| RepairWorkflow.ReadVerified | corvus/workflow.py:419-429 | for each path of the candidate the content in the verified tree |
| RepairWorkflow.OneEnding | corvus/workflow.py:164-281 | a run that returns has exactly one ending, its last event; at most max(0, repairs) + 1 verifications, and exactly that many when it fails |
| RepairWorkflow.BundleWasVerified | corvus/workflow.py:233-270 | a bundle holds what was staged for the last round; every command of that round was well formed and exited with zero, and every trusted one was among them as required |
| RepairWorkflow.UnfinishedCounts | corvus/workflow.py:164-231 | an unfinished run has no ending and one verification for each repair, plus that of the round under way |
| RepairWorkflow.CodingWorkflow.RunCommands | corvus/workflow.py:309-356 | one result for each planned command, in order |
| RepairWorkflow.CodingWorkflow.VerifyAttempt | corvus/workflow.py:286-358 | at most one staging event, also when closing the sandbox raises |
| RepairWorkflow.CodingWorkflow.Round | corvus/workflow.py:165-195 | a round on a fresh copy of the source, recorded as passed exactly when every command exited with zero |
| RepairWorkflow.CodingWorkflow.WriteAttempt | corvus/workflow.py:165-167 | a fresh copy of the source with the candidate on top |
| RepairWorkflow.CodingWorkflow.PlanAttempt | corvus/workflow.py:168-171 | the plan of this candidate, or a refusal of its own |
| RepairWorkflow.CodingWorkflow.Judge | corvus/workflow.py:179-195 | a round passes exactly if every command exited with zero, and is recorded so |
| RepairWorkflow.CodingWorkflow.Repair | corvus/workflow.py:164-231 | rounds that failed and were repaired, ended by one that passed or by the last one allowed |
| RepairWorkflow.EndsRound | corvus/workflow.py:185-231 | a recorded round with what follows it is a repair, a failed run at the limit, or a delivery |
| RepairWorkflow.CodingWorkflow.Append | corvus/workflow.py:185-195 | an event is recorded exactly if the append does not raise |
| RepairWorkflow.CodingWorkflow.UseSandbox | corvus/workflow.py:296-356 | staging is recorded before anything runs |
| RepairWorkflow.CodingWorkflow.Deliver | corvus/workflow.py:235-269 | the bundle holds the verified content and the results of the last round, and is recorded only when packaged |
| RepairWorkflow.CodingWorkflow.Guarded | corvus/workflow.py:153-270 | a bundle with its story, a failed run, or an unfinished story with an exception; nothing raised is swallowed, and no exception is made up |
| RepairWorkflow.CodingWorkflow.Handle | corvus/workflow.py:153-281 | a handled exception becomes a recorded block exactly if that record succeeds; any other escapes |
| RepairWorkflow.CodingWorkflow.Execute | corvus/workflow.py:110-284 | for any behaviour of provider, sandbox, store and file system: the events are one complete story, with exactly one ending and that at the end, or an unfinished one with none; each of the four ways out is taken exactly when its own step raises |
| RepairWorkflow.CodingWorkflow.ExecuteHandled | corvus/workflow.py:153-281 | for the handled exception families, if neither prompt, store nor cleanup raises, the trace ends with exactly one of the three endings |
| RepairWorkflow.EscapesTooEarly | corvus/workflow.py:111-126 | a handled exception of the first append leaves no ending |
| RepairWorkflow.EscapesUncaught | corvus/workflow.py:153-156 | an unhandled exception leaves no ending |
| RepairWorkflow.EscapesNotRecorded | corvus/workflow.py:279-281 | a block that cannot be recorded leaves no ending |
| RepairWorkflow.EscapesFromCleanup | corvus/workflow.py:282-284 | a directory that cannot be removed raises after the ending |

## Left out

- Command-line and terminal interfaces, HTTP transports, containers, access-control lists, keyring, git checkpoints, `database.py`, `config.py`, `policy.py`, `skills.py`, `memory.py`, `quarantine.py`: plumbing or easy lookups.
- Delivery: `package`, diffs and the bill of materials; `load`; empty parent directories left behind by an undo; path aliasing (paths are distinct and normalized); a backup that decrypts with another key. A damaged approval record is a missing one.
- DeliveryRuns.RunThenRecover: speaks of runs in which nobody else touched the changed files or their backups since the running operation checked them, because recovery must refuse to overwrite foreign content; one file is checked and replaced in one step, although the source checks shortly before.
- EventStream.Run: one reader, because readers do not affect the log; the checks of a payload before the number is taken leave the log alone and are left out.
- Delegation.Run: time does not pass, so a timeout is a child or run that ends; cost limits are reals.
- ChatRuns.Run: the events themselves and their order are the subject of EventStream; an empty reply and no reply are told apart, timeouts are one of the four ways a run can end.
- AuditCoordinator.Operate: the capability matrix behind the provider preflight is one adversarial answer; equality of digests stands for constant-time comparison; a field of a receipt that reads as a value of the right type (any true value for acknowledged, 2.0 for 2) is that value.
- AuthorizationMeaning.AllowedExactly: which reason code a denial carries when several apply; only that of an allowance is stated.
- Authorization.AllowedExactlyInWindow: for the sealed-local anchor; the registry anchor is an uninterpreted function of request, evidence and time, since its validators are not part of this model.
- Authorization.WindowIsBoundedAndConvex: for the sealed-local anchor, for the same reason.
- Snapshot.CreateSnapshot: link checks on the ancestors of source and destination, the destination's own preconditions, and files that change while being copied; the walk takes entries in any order, not only the sorted one of the source, so on a refusal it does not say which entry is reported.
- ArchiveScan.ArchiveSource: the identity checks for entries replaced during the capture pass on a static tree; modes and times of members.
- PackageScan.VerifyInstalledPackage: the case-insensitive platform.
- JsonNormalizer.NormalizeValue: the interpreter's recursion limit, which ends the recursion on very deep acyclic values; keys of one mapping are distinct, as in a dictionary; the text of a leaf is abstract.
- ProviderStream.Collector.Collect: does not claim that streamed redaction equals redaction of the whole text, because the cut is placed by buffer length and trailing matches only; result metadata other than the text.
- TraceStore.VerifyAfterTampering: a table whose texts still parse; the payload is the parsed value, so its spelling in the row is not covered.
- RepairWorkflow.CodingWorkflow.Execute: payloads of events other than those the properties speak of; output text of the commands; a store append that writes and then raises. A call stands for the local work around it, so an output that cannot be encoded is a call that raises.
- RepairWorkflow.ApplyCandidate: links inside an attempt directory, which a snapshot does not contain.
- VerificationPolicy.MakePlan: which error is reported when several apply.
