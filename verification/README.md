# at-gateway: a verified model of its message protocols

The gateway drives one GSM modem. Inbound messages travel from the modem's own store over a
bounded channel into the inbox, where concatenated parts are put together, repeated
notifications are damped, and webhooks are queued for delivery. Outbound messages wait in
an outbox table until a single worker sends them and delivery reports settle them. Each
leg keeps its own state, has its own bounds, and can be interrupted anywhere. The modules
here model all of them and prove what they keep over whole runs.

The pattern is the same throughout. The values and the code's statements on them are
datatypes and functions. The objects the code updates in place are classes, whose methods
have the code's loops and branches and are proved to compute those functions. What is
promised over time is proved about runs: sequences of steps, in every order the code and
its environment allow, with every failure the code handles.

| Modules | Part of the system |
|---|---|
| `Budget`, `BudgetRuns`, `BudgetBound`, `StoreRoute`, `Shedding`, `Conservation` | the route of a modem store entry to the channel: read, decode, offer, retry budget, delete |
| `Reassembly`, `ReassemblyRuns`, `Inbox` | concatenated parts to messages, with at most 512 open groups |
| `Dedupe`, `DedupeHistory`, `Emission` | the sliding-TTL dedupe of message ids and what it lets through to the queue |
| `MessageIdentity` | the text an inbound message is identified by |
| `WebhookQueue`, `QueueRuns`, `QueueWorker` | the webhook queue table, its worker over whole runs, and the worker's code |
| `Outbox`, `OutboxRepository`, `OutboxMachine`, `OutboxRuns`, `OutboxCancel`, `OutboxOverwrites`, `OutboxReports`, `OutboxSettled`, `OutboxStatements`, `OutboxWorker` | the outbox tables, their statements, the worker over whole runs, cancels and delivery reports in them, and the worker's code |
| `CommandLayer`, `CommandRuns`, `Commands` | the AT command layer: drain barrier, init gate, store selection, part loop |
| `Text`, `StoreParsing` | the parsers of store responses, on the string functions they use |
| `Options`, `Collections` | what several modules share |

`dafny verify dfyconfig.toml` checks the project.

## How the environment enters

Times are integers in nanoseconds and are given to each step; a clock never runs
backwards where a claim needs it, and that is then said. The modem's answers, failures of
statements and concurrent callers are arbitrary: parameters of a step, or, where a method
runs many steps, a script that says how each of them turns out and that its contract holds
it to. A statement that fails may or may not have been
applied. A crash is a step of its own. A critical section, a statement or a transaction is
one step. Where Go leaves a choice open (the order of map iteration decides between equal
times) so does the model.

`QueueWorker`, `OutboxWorker` and `Commands` are the code of the workers and of the command
layer; each carries the abstract machine of `QueueRuns`, `OutboxMachine` or `CommandLayer`
along as ghost state and takes one of its steps for every statement it executes, so that
everything proved of the machine's runs holds of the code.

## Where the code and its comments part

The model follows the code. Where its comments promise more, there is a lemma.

- `ME` and `SM` share a budget number (`internal/modem/store.go:63-72`): entries at the same
  index of both spend one budget (`Shedding.SharedKeyShedsEarly`).
- An evicted budget starts afresh (`internal/modem/service.go:950-956`): with more than 64
  failing references three attempts are no bound (`BudgetBound.ThreeAttemptsIffFew`). The
  bound can fail for ever (`BudgetRuns.SpreadNeverSheds`,
  `BudgetRuns.RoundRobinSpreads`), and does in runs of any length whose references come back
  well inside the window (`BudgetRuns.TurnsNeverShed`, `BudgetRuns.TurnsRevisit`).
- The dedupe TTL slides with every mark of the id, whichever webhook it is for
  (`internal/inbox/dedupe.go:79-81`): `DedupeHistory.OwnMarkOutlived`. Its capacity eviction
  is by insertion, not by age (`Dedupe.EvictionDropsFirstInserted`).
- The gap check in the join loop is called unreachable (`internal/inbox/service.go:340-344`);
  sequence numbers out of range reach it, and nothing is emitted before every needed part
  is there (`ReassemblyRuns.EmissionExact`).
- The identity separator is said to occur in no component (`internal/inbox/types.go:35-37`).
  A data message may hold it in its content, and does no harm there: what the identity needs
  is a condition on the sender alone (`MessageIdentity.IdentityExact`). Two messages of a
  sender without the separator share a pre-image if and only if the sender is shaped like an
  RFC 3339 stamp (`MessageIdentity.AmbiguousIffStampShaped`), which no decoded address is
  (`MessageIdentity.AssembledIdentity`).
- States of the outbox are not terminal (`internal/messages/service.go:241-245` says
  `SetState` keeps them so; it compares with the same state only). A cancel is overwritten at
  the end of a pass that loaded the message before (`OutboxCancel.CancelIsOverwritten`), or by
  the re-derivation after a delivery report, with no pass under way
  (`OutboxOverwrites.ReportOverwritesCancel`: the message ends Delivered, its recipient
  Cancelled). `OutboxOverwrites.CancelOverwrittenIff` says exactly when a cancelled message
  can leave Cancelled, and `OutboxCancel.CancelledMayBeSentIff` when a cancelled recipient is
  sent to all the same. A mix of Delivered and Failed recipients resolves to Sent
  (`OutboxMachine.Resolve`).
- A served webhook is said to receive no duplicate (`internal/inbox/service.go:453-456`,
  `internal/webhooks/service.go:131-135`). It does if its enqueue was applied and reported to
  have failed (`Emission.StrayIsDoubled`); of the confirmed items there is one per chain
  (`Emission.StoredOncePerChain`).
- `Create` is said to refuse an empty ext_id (`internal/messages/repository.go:40-44`); nothing
  in it does, nor in the model.
- Overlapping routes on one slot do not endanger conservation. Refilling a slot can lose the
  new message exactly when a route on the slot is past its read
  (`Conservation.RunConserves`, `Conservation.RefillLosesIffPastRead`).
- The retry delay is a shift in int64 (`internal/webhooks/service.go:353-358`) and is the
  promised doubling exactly while it fits (`WebhookQueue.RetryDelayExact`). The configuration
  bounds neither base nor retries (`internal/config/config.go:84-97`): if anything is selected
  at all, the back-off is kept in every run if and only if no delay exceeds 63 bits
  (`QueueRuns.BackOffKeptIffSane`). Every
  other promise of the queue holds in either case.

## Model

| member | source | states |
|---|---|---|
| `Budget.SpendBounded` | internal/modem/service.go:935-966 | booking a failure keeps at most 64 budgets, each with one or two attempts spent |
| `Budget.SpendExact` | internal/modem/service.go:935-966 | a failure is final exactly if two attempts were booked before, the last inside the window; of the other budgets those go whose window elapsed, and the one given up |
| `Budget.VictimExact` | internal/modem/service.go:950-956 | one is given up exactly if the reference has none inside the window and 64 others do, and it was booked longest ago |
| `BudgetRuns.RunSound` | internal/modem/service.go:935-1024 | in every run of failures, accepted hand-offs and reclaims the map agrees with the history of every reference, within its bounds |
| `BudgetRuns.SpentExactlyAtThird` | internal/modem/service.go:935-966 | a failure is final exactly when it is the third of a chain of failures of its reference, each inside the window of the next, with no accepted hand-off, eviction or exhaustion in between |
| `BudgetRuns.SpreadNeverSheds` | internal/modem/service.go:950-956 | when 64 failures of other references lie between two of the same, no failure is ever final, however long the run |
| `BudgetRuns.RoundRobinSpreads` | internal/modem/service.go:950-956 | a round robin over 65 or more references is such a run |
| `BudgetRuns.TurnsNeverShed` | internal/modem/service.go:935-1014 | runs of any length are possible in which 65 or more references fail in turn and no failure is final |
| `BudgetRuns.TurnsRevisit` | internal/modem/service.go:935-966 | in them every failure after the first turn follows one of its reference inside the window |
| `BudgetBound.ThreeAttemptsIffFew` | internal/modem/service.go:935-1014 | in every run of failures of a set of references, each inside the window of the one before of its reference, one of any three successive failures of a reference is final - if and only if the set has at most 64 members |
| `StoreRoute.ModemService.SweepChannelFullBudgets` | internal/modem/service.go:986-992 | exactly the budgets whose window elapsed go |
| `StoreRoute.ModemService.EvictOldestChannelFullBudget` | internal/modem/service.go:1000-1014 | a budget with minimal seenAt goes, and only that one |
| `StoreRoute.ModemService.SpendChannelFull` | internal/modem/service.go:935-966 | the map and the answer are those of one booked failure; an eviction happens only when every expired budget is gone and the map is still full |
| `StoreRoute.ModemService.ForgetChannelFull` | internal/modem/service.go:1019-1024 | the budget of the reference goes, and only that one |
| `StoreRoute.ModemService.HandOffInboundPart` | internal/modem/service.go:877-906 | a part is placed on the channel if there is room, else its failure is booked and counted as retryable or exhausted |
| `StoreRoute.ModemService.DeleteStoredMessage` | internal/modem/service.go:1036-1052 | bounded attempts until one is confirmed; a refused delete may have happened |
| `StoreRoute.ModemService.ProcessStoredEntry` | internal/modem/service.go:711-747 | read, decode, offer and delete, with the sweep's policy for undecodable entries, are exactly the route of the entry |
| `StoreRoute.RouteExact` | internal/modem/service.go:711-747 | what a route comes to, case by case: unread and undecodable entries are counted, a part is placed if the channel has room and otherwise booked, and only then deleted |
| `StoreRoute.DeleteExact` | internal/modem/service.go:1036-1052 | the entry is gone if one delete was confirmed, or refused and done; a failure is counted if none was confirmed |
| `StoreRoute.ModemService.SetStoreMemory` | internal/modem/service.go:770-779 | a new store name is remembered once, in order of appearance |
| `StoreRoute.ModemService.TrackedStoreMemories` | internal/modem/service.go:785-794 | the remembered stores, or SM when there are none |
| `StoreRoute.ModemService.SweepListed` | internal/modem/service.go:838-857 | the listed entries of one store take the route as the next of the sweep, in order, until the context is cancelled |
| `StoreRoute.ModemService.SweepMemory` | internal/modem/service.go:823-857 | one store is listed with its own name and what is listed swept; if it cannot be, the sweep stands where it was |
| `StoreRoute.ModemService.SweepMemories` | internal/modem/service.go:813-859 | the stores have their turns in order; a cancelled context ends the sweep after exactly the entries visited before |
| `StoreRoute.ModemService.SweepStore` | internal/modem/service.go:797-859 | every tracked store that can be listed is swept, the others are skipped; a disconnected modem is left alone |
| `StoreRoute.ModemService.HandleCMTI` | internal/modem/service.go:641-695 | a malformed head, a saturated handler set and a missing connection are each counted, by their own counter, and touch nothing else; otherwise the entry takes the route, under the given read, time and replies |
| `Shedding.ShedAtThirdVisit` | internal/modem/service.go:877-966 | with the channel full, an entry's first two visits keep it and count channel_full, its third deletes it and counts channel_full_exhausted, whatever at most 63 other references do in between |
| `Shedding.ThreeSweepsShedAll` | internal/modem/service.go:813-859 | from no budgets and a full channel, three error-free sweeps of the tracked stores, each listing what is there, over at most 64 entries with distinct keys and a reference never waiting a whole window, empty the store, leave no budget, and count every entry twice as channel_full and once as exhausted |
| `Shedding.ThreePassesShedAll` | internal/modem/service.go:838-966 | so do any three passes over the same entries, each in its own order |
| `Shedding.SharedKeyShedsEarly` | internal/modem/store.go:63-72 | with entries at one index of both ME and SM, the one in ME is deleted at its second visit |
| `Conservation.RunConserves` | internal/modem/service.go:641-747 | in every interleaving of routes, unless a slot is refilled while a route is past its read of it, every entry that ever arrived is in the store, or was placed on the channel, counted exhausted, or counted undecodable by a sweep |
| `Conservation.LeavesOnlyAccounted` | internal/modem/service.go:711-747 | an entry leaves the store only by the delete of a route that accounted for it: no failed read, undecodable notification or retryable drop deletes |
| `Conservation.RouteIsRun` | internal/modem/service.go:711-747 | the uninterrupted route of the object is one interleaving of the machine |
| `Conservation.RefillLosesIffPastRead` | internal/modem/service.go:1036-1052 | after any such run, a message that refills an empty slot can be lost if and only if a route on the slot is past its read |
| `Conservation.RefillIsPossible` | internal/modem/service.go:1036-1052 | such a refill is possible in every slot |
| `Reassembly.CompleteNeedsAll` | internal/inbox/service.go:333-346 | with fewer parts than segments some needed part is missing, whatever the other sequence numbers: the early size check is sound |
| `Reassembly.SameKeyIff` | internal/inbox/types.go:45-52 | two parts belong together if and only if they agree in sender, reference width and reference |
| `ReassemblyRuns.GroupMeans` | internal/inbox/service.go:312-332 | the group of a key holds, for exactly the sequence numbers of the parts that still belong to it, the latest of them |
| `ReassemblyRuns.GroupBegins` | internal/inbox/service.go:312-328 | a group dates from the first of its parts, however many come later |
| `ReassemblyRuns.JoiningAlike` | internal/inbox/service.go:312-332 | the parts of one message are of one sender, width and reference, and announce one count |
| `ReassemblyRuns.EmittedSender` | internal/inbox/service.go:348-362 | a message has the sender of every part of it |
| `ReassemblyRuns.EmissionExact` | internal/inbox/service.go:330-363 | a message is emitted exactly at the first part that makes every sequence number 1..segments present in its live group |
| `ReassemblyRuns.ContentExact` | internal/inbox/service.go:337-356 | its content joins, in sequence order, the latest part per sequence number since the group was created |
| `ReassemblyRuns.HeadExact` | internal/inbox/service.go:348-362 | its sender, port, stamp and reference are those of the latest part 1 |
| `ReassemblyRuns.OtherKeysInvisible` | internal/inbox/service.go:312-332 | nothing that happens to other keys shows in the group of a key |
| `ReassemblyRuns.FullSetEmits` | internal/inbox/service.go:299-363 | a full set of parts fed to an empty key, in any order, is emitted at its last part and not before |
| `ReassemblyRuns.AnyOrderAnyInterleaving` | internal/inbox/service.go:299-363 | two histories that end with the same parts of one message, in whatever order and among whatever traffic, emit the same message |
| `ReassemblyRuns.LiveKeysExact` | internal/inbox/service.go:312-332 | the live keys are exactly those with a group |
| `ReassemblyRuns.GroupsAccounted` | internal/inbox/service.go:312-328 | groups created = live + emitted + given up + restarted while live |
| `Inbox.InboundService.SweepInbound` | internal/inbox/service.go:402-412 | exactly the groups whose window elapsed go, each counted as a timeout, and the dedupe forgets what expired |
| `Inbox.InboundService.EvictOldestInboundGroup` | internal/inbox/service.go:385-398 | a group with minimal firstAt goes and is counted |
| `Inbox.InboundService.NewInboundGroup` | internal/inbox/service.go:370-382 | room for one more of at most 512 groups; a group that is not expired goes only when none is |
| `Inbox.InboundService.AssembleInbound` | internal/inbox/service.go:299-363 | the groups stay those of the log, and a message comes out exactly when, and as, the log says; groups are given up only from a full map: those whose window elapsed or, if none did, one that began first |
| `Inbox.InboundService.AbortInbound` | internal/inbox/service.go:446-451 | every incomplete group is counted once as aborted and dropped |
| `Inbox.InboundService.EmitInbound` | internal/inbox/service.go:461-529 | whoever is not served is attempted, and exactly those whose item was stored are marked |
| `Inbox.InboundService.Accounting` | internal/inbox/service.go:312-451 | groups created = live + emitted + timed out + aborted + restarted, with at most 512 live |
| `Inbox.Join` | internal/inbox/service.go:333-363 | a size check and one walk over 1..segments give the message exactly when the group is complete |
| `Dedupe.InboundDeduper.Served` | internal/inbox/dedupe.go:43-55 | the webhooks served within the TTL, each once |
| `Dedupe.InboundDeduper.Mark` | internal/inbox/dedupe.go:60-82 | the id is refreshed with the webhook added, started anew once expired, and makes room at capacity |
| `Dedupe.InboundDeduper.Sweep` | internal/inbox/dedupe.go:85-100 | exactly the expired ids go, from the entries and from the order |
| `Dedupe.InboundDeduper.EvictOldest` | internal/inbox/dedupe.go:103-113 | the id at the front of the order goes |
| `Dedupe.EvictionDropsFirstInserted` | internal/inbox/dedupe.go:103-113 | a capacity eviction drops precisely the id inserted first, whatever its stamp |
| `Dedupe.MarkWellFormed` | internal/inbox/dedupe.go:60-82 | marking keeps the order a duplicate-free listing of exactly the remembered ids, within the capacity |
| `Dedupe.SweepWellFormed` | internal/inbox/dedupe.go:85-100 | sweeping keeps it too |
| `Dedupe.KeptInOrder` | internal/inbox/dedupe.go:85-100 | and the order of those that stay |
| `DedupeHistory.RunSound` | internal/inbox/dedupe.go:43-113 | in every run the cache is well formed and agrees with the log of marks and evictions |
| `DedupeHistory.TrackedSummarises` | internal/inbox/dedupe.go:60-82 | what is remembered of an id names its last mark and exactly the webhooks of its current chain |
| `DedupeHistory.ServedExactly` | internal/inbox/dedupe.go:43-113 | after every run with a forward clock the cache reports exactly the webhooks marked in the live chain of the id since its last capacity eviction; sweeps never show |
| `DedupeHistory.ServedWithinChain` | internal/inbox/dedupe.go:43-113 | under any evictions it reports a subset of the chain, and all of it when none hit the id |
| `DedupeHistory.NeverEvictIffFew` | internal/inbox/dedupe.go:60-82 | no run whose marks are of a given set of ids evicts any of them if and only if the set has at most 1024 members |
| `DedupeHistory.ServedIsChain` | internal/inbox/dedupe.go:43-113 | in runs over no more ids than that the cache reports exactly the live chain |
| `DedupeHistory.OrderIsInsertion` | internal/inbox/dedupe.go:60-113 | in every run the order list names the remembered ids in the order in which they came into the cache |
| `DedupeHistory.OwnMarkOutlived` | internal/inbox/dedupe.go:79-81 | a webhook marked once stays served more than one TTL after its own mark when another is marked meanwhile |
| `Emission.EmitTracked` | internal/webhooks/service.go:141-186 | every selected webhook that is not served is attempted, in order, with its own result; the rest are counted |
| `Emission.SuppressedOrAttemptedOnce` | internal/webhooks/service.go:141-186 | each selected webhook is either suppressed or attempted exactly once, and the result reported for it is its own |
| `Emission.AttemptedInOrder` | internal/webhooks/service.go:141-186 | the attempts are made in the order of selection |
| `Emission.PlayConsistent` | internal/inbox/service.go:461-529 | over every run the marks are exactly the items confirmed, and no two confirmed items of one webhook and message fall into one chain without a capacity eviction between |
| `Emission.SuppressedWasStored` | internal/inbox/service.go:463-525 | a suppressed webhook has an item of this message stored in the chain that reaches the notification |
| `Emission.FailedIsRetried` | internal/inbox/service.go:522-526 | a webhook whose enqueue is reported to have failed, applied or not, is attempted at the next notification that selects it, whatever was marked, swept or evicted meanwhile |
| `Emission.StrayIsDoubled` | internal/inbox/service.go:522-526 | an item that was stored although its enqueue is reported to have failed gets a second one at the next successful notification, however soon |
| `Emission.StoredOncePerChain` | internal/inbox/service.go:461-529 | two confirmed items of one webhook and message are never stored in one chain unless the message was evicted between them |
| `MessageIdentity.IdentityExact` | internal/inbox/types.go:112-130 | whatever the contents hold, two messages of senders without the separator have one pre-image exactly when they are equal, or one has a sender that reads as the other's stamp |
| `MessageIdentity.IdentityText` | internal/inbox/types.go:112-130 | the text: stamp if there is one, sender, content, port, and width and value of the reference if there is one, with U+001F between them |
| `MessageIdentity.StampReads` | internal/inbox/types.go:120-125 | the stamp is written as YYYY-MM-DDThh:mm:ssZ, and every number of it can be read back |
| `MessageIdentity.IdentityInjective` | internal/inbox/types.go:112-130 | if neither sender is shaped like a stamp, two messages have one pre-image exactly when they agree in presence and second of the stamp, sender, content, port, and presence, width and value of the reference |
| `MessageIdentity.AssembledIdentity` | internal/inbox/types.go:106-130 | so do two assembled messages from decoded addresses, whatever octets they carry |
| `MessageIdentity.AmbiguousIffStampShaped` | internal/inbox/types.go:112-130 | of a sender without the separator two different messages share a pre-image if and only if it is shaped like a stamp |
| `MessageIdentity.SeparatedSenderCollides` | internal/inbox/types.go:35-37 | every message of a sender with the separator shares its pre-image with a message of a sender without |
| `WebhookQueue.RetryDelayExact` | internal/webhooks/service.go:353-358 | the delay is base times 2^n if and only if that fits a 64-bit register |
| `WebhookQueue.Repository.Enqueue` | internal/webhooks/repository.go:81-88 | a new id is inserted, a known one refused |
| `WebhookQueue.Repository.DueItems` | internal/webhooks/repository.go:93-123 | due rows as they are, each once, earliest first, and none left out that is due before a listed one unless the limit is reached |
| `WebhookQueue.Repository.MarkProcessing` | internal/webhooks/repository.go:126-136 | the status alone changes, whatever it was |
| `WebhookQueue.Repository.MarkCompleted` | internal/webhooks/repository.go:139-149 | the status alone changes, whatever it was |
| `WebhookQueue.Repository.MarkFailed` | internal/webhooks/repository.go:153-167 | one more retry, a new attempt time, status failed, and the error |
| `WebhookQueue.Repository.MarkPermanentlyFailed` | internal/webhooks/repository.go:170-182 | the status and the error change, whatever they were, and nothing else |
| `WebhookQueue.Repository.RecoverStuck` | internal/webhooks/repository.go:186-198 | exactly the processing rows due before the threshold are pending again |
| `WebhookQueue.Repository.Cleanup` | internal/webhooks/repository.go:202-219 | exactly the completed and permanently failed rows created before the cutoff go |
| `QueueRuns.BackOffKept` | internal/webhooks/service.go:353-380 | as long as no delay exceeds 63 bits, in every run a row that failed n times has n <= RetryCount and waits at least base*(2^n - 1) from its creation; none is given up before base*(2^RetryCount - 1) |
| `QueueRuns.BackOffKeptIffSane` | internal/webhooks/service.go:353-380 | whatever base, retries and batch size are configured, every run keeps the back-off if and only if no delay exceeds 63 bits or nothing is ever selected |
| `QueueRuns.PostsBounded` | internal/webhooks/service.go:276-291 | whatever the configuration, an item is posted at most RetryCount + 1 times plus once per attempt whose outcome was not recorded, even after its row is gone |
| `QueueRuns.ErrorIsLastRecorded` | internal/webhooks/repository.go:153-182 | in every run a row bears the error of its last recorded failure, and one at all exactly if it was retried or given up |
| `QueueRuns.TerminalIsFinal` | internal/webhooks/repository.go:125-219 | no step changes a completed or permanently failed row; only such rows are removed |
| `QueueRuns.TerminalForever` | internal/webhooks/repository.go:125-219 | over every run such a row is as it was, or gone for good |
| `QueueRuns.NoneLost` | internal/webhooks/repository.go:202-219 | an enqueued item whose row is gone had reached its final outcome |
| `QueueRuns.GoneWasOld` | internal/webhooks/repository.go:202-219 | in every run an item whose row is gone was removed by a cleanup, when it was finished and enqueued longer ago than the retention |
| `QueueRuns.CleanupExact` | internal/webhooks/service.go:263-269 | a cleanup leaves none of those, and all others as they are |
| `QueueRuns.RecoveryExact` | internal/webhooks/service.go:254-258 | a recovery makes exactly the rows pending that are processing since before the timeout |
| `QueueRuns.SelectionExact` | internal/webhooks/repository.go:93-123 | what is selected is pending or failed and due, earliest first, and nothing of that kind is passed over unless the batch is full |
| `QueueRuns.OutcomeExact` | internal/webhooks/service.go:280-291 | the record of an attempt: completed, retried after its delay, or given up |
| `QueueRuns.EnqueuedIsDue` | internal/webhooks/service.go:188-225 | a new item is pending, never tried, and due at once |
| `QueueRuns.StuckIsRecovered` | internal/webhooks/service.go:254-258 | a row left in processing is due again after a recovery past the timeout |
| `QueueRuns.OverflowBreaksBackOff` | internal/webhooks/service.go:353-358 | with any configuration under which a delay exceeds 63 bits and the batch size is positive, a row that fails whenever it is due comes to be due before its back-off |
| `QueueWorker.Service.MarkDeliveryFailure` | internal/webhooks/service.go:360-380 | a failed attempt is recorded as a retry or as permanent, and the run goes on by that very step |
| `QueueWorker.Service.Settle` | internal/webhooks/service.go:280-290 | the run goes on by one post of the claimed item and one record of its outcome, and by nothing else |
| `QueueWorker.Service.Attempt` | internal/webhooks/service.go:275-291 | the run goes on by a claim and, exactly if it was confirmed, by one post of the item and one record |
| `QueueWorker.Service.AttemptAll` | internal/webhooks/service.go:271-292 | the run goes on by the steps of the selected items, each once and in order, all of them or those before a stop; exactly the items whose claim was confirmed are posted |
| `QueueWorker.Service.ProcessQueuePass` | internal/webhooks/service.go:254-293 | the run goes on by the steps of one whole pass - recovery, selection, then the steps of the selected items or the cleanup - unless the selection fails or it is stopped; the table stays the machine's |
| `Outbox.Currents` | internal/messages/models.go:239-257 | the state of each recipient is the last entry of its history |
| `Outbox.NewRecipients` | internal/messages/models.go:218-235 | one Pending recipient per phone, in order, with a history of one entry and no reference |
| `Outbox.FirstTimesStay` | internal/messages/models.go:32-44 | the time a state was first entered stays, however the history grows |
| `OutboxStatements.FirstTimesExact` | internal/messages/models.go:32-44 | the time told for a state is that of its first entry |
| `OutboxStatements.CreateExact` | internal/messages/models.go:218-235 | a new message is Pending since now, keeps what it was ordered with, and has one Pending recipient per phone |
| `OutboxRepository.ToDomainMap` | internal/messages/models.go:34-44 | the loop collects when each state was first entered |
| `Outbox.BareDrops` | internal/messages/repository.go:241-255 | the stored phone is compared without its plus signs, all other characters kept in order |
| `OutboxRepository.Repository.Create` | internal/messages/repository.go:45-81 | a known ext_id or a repeated phone changes nothing and says which; else one Pending message is appended with its recipients |
| `OutboxRepository.Repository.GetByID` | internal/messages/repository.go:85-106 | the row of that ext_id, or none |
| `OutboxRepository.Repository.Cancel` | internal/messages/repository.go:140-158 | succeeds exactly for a known message that is neither Failed nor Cancelled, and then cancels it and its recipients that are neither; an unknown one and one past cancelling are told apart and left alone |
| `OutboxStatements.CancelExact` | internal/messages/repository.go:140-158 | on the columns: which row and recipients a cancel changes, and how |
| `OutboxRepository.Repository.Sweep` | internal/messages/repository.go:380-385 | the cascade appends the state to every recipient not Failed or already there |
| `OutboxRepository.Repository.SetState` | internal/messages/repository.go:163-180 | the state and its history entry, unless it is the state already |
| `OutboxStatements.SetStateExact` | internal/messages/repository.go:163-180 | on the columns: which row it changes, and how |
| `OutboxRepository.Repository.UpdateRecipientState` | internal/messages/repository.go:317-343 | one recipient of one message gains the entry, under the guards of the statement |
| `OutboxStatements.RecipientExact` | internal/messages/repository.go:182-343 | on the columns: which recipient it changes, under which guards, and how |
| `OutboxRepository.Repository.SetRecipientByRef` | internal/messages/repository.go:235-315 | the oldest recipient that is Sent under the reference, wants a report and matches the phone gains the state; no other changes |
| `OutboxRepository.Repository.FindAwaiting` | internal/messages/repository.go:244-254 | the first match in the order of ids |
| `OutboxStatements.ReportedIsOwed` | internal/messages/repository.go:241-255 | the recipient a report is applied to is Sent under its reference, in a message whose reports are not declined, and, if the report names a phone, has that very phone behind a plus sign |
| `OutboxStatements.ReportedIsFirst` | internal/messages/repository.go:241-255 | a recipient with these properties is found if there is one, and the first of them |
| `OutboxStatements.ReportTouchesOne` | internal/messages/repository.go:235-263 | no other recipient and no message changes |
| `OutboxRepository.Repository.DequeueNextPending` | internal/messages/repository.go:413-504 | expiry first, then the claim of the lowest due row that is left |
| `OutboxRepository.Repository.Expire` | internal/messages/repository.go:421-458 | exactly the open messages past valid_until fail, with their recipients |
| `OutboxStatements.ExpiryExact` | internal/messages/repository.go:421-458 | on the columns: which rows an expiry changes, and how |
| `OutboxMachine.Resolve` | internal/messages/service.go:455-473 | Pending, Cancelled or Processed if a recipient is, in this order; Failed or Delivered exactly if all are; else Sent |
| `OutboxMachine.HistoriesGrow` | internal/messages/repository.go:163-397 | over every run, with every interleaving and failure, rows stay, histories are only appended to, and a recipient that left {Pending, Processed} never re-enters it |
| `OutboxRuns.SentOnce` | internal/messages/service.go:339-428 | a history holds at most one Sent entry, at most one delivery report is accepted, and sends number at most one plus the passes whose outcome was not recorded |
| `OutboxRuns.ColumnIsLastEntry` | internal/messages/models.go:79-117 | the state column is the last entry of the history, and a message that is not claimable has no recipient left to send to |
| `OutboxRuns.ExpiredAreFailed` | internal/messages/repository.go:421-458 | after a dequeue every message it found expired is Failed with all its recipients, and was not the one claimed |
| `OutboxRuns.ClaimIsFirstDue` | internal/messages/repository.go:460-489 | the claim takes the lowest id that is open, due and not expired, if there is one |
| `OutboxRuns.DequeueTouches` | internal/messages/repository.go:413-489 | it changes no message but the expired ones and the claimed one |
| `OutboxStatements.DueIsClaimed` | internal/messages/repository.go:460-489 | a message that is Pending or Processed, not before its schedule_at and before its valid_until, is claimed unless one before it is |
| `OutboxStatements.SentOnSchedule` | internal/messages/service.go:300-408 | in every run, when the modem is asked to send to a recipient, its message was claimed at a time not before its schedule_at and before its valid_until |
| `OutboxStatements.BeginExact` | internal/messages/repository.go:182-192 | the mark before a send makes a Pending recipient Processed and changes nothing else |
| `OutboxStatements.RecordExact` | internal/messages/repository.go:194-216 | the record after it makes the recipient Sent under its reference, or Failed |
| `OutboxStatements.FinishExact` | internal/messages/service.go:323-331 | the end of a pass enters the state the outcomes resolve to |
| `OutboxOverwrites.CancelOverwrittenIff` | internal/messages/service.go:197-331 | in any reachable state a cancelled message can still leave Cancelled if and only if a pass at it loaded no recipient Cancelled, or it is about to be loaded or re-derived with none Cancelled, or another state derived before is about to be stored, or a recipient is Sent and may get a report while none is Cancelled |
| `OutboxOverwrites.ReportOverwritesCancel` | internal/messages/service.go:239-275 | there is a run from the empty tables in which a message is cancelled with no pass under way and ends Delivered, its recipient Cancelled |
| `OutboxOverwrites.CancelBeforeStore` | internal/messages/service.go:262-273 | a cancel between the load and the store of a re-derivation is lost on the message and kept by its recipients |
| `OutboxCancel.CancelledMayBeSentIff` | internal/messages/service.go:313-408 | in any reachable state a Cancelled recipient can still end Sent if and only if it was cancelled after the load: the worker is at its message, loaded it open and with a text, and has not recorded its outcome |
| `OutboxCancel.CancelIsOverwritten` | internal/messages/service.go:300-332 | there is a run from the empty tables in which a message is cancelled, its recipient with it, and both end Sent |
| `OutboxReports.DuplicatePassesBy` | internal/messages/service.go:209-224 | after a report was applied to a recipient no later report is, whatever it carries |
| `OutboxReports.DeliveredIffReported` | internal/messages/service.go:197-228 | in every run a recipient's history says Delivered if and only if a report that says so was applied to it |
| `OutboxSettled.CancelSettles` | internal/messages/repository.go:355-391 | cancelling a settled message leaves it settled |
| `OutboxSettled.ExpirySettles` | internal/messages/repository.go:421-458 | so does expiring it |
| `OutboxSettled.IdleIsSettled` | internal/messages/service.go:197-331 | without failures and with cancels between passes, every message with recipients is in the state its recipients resolve to whenever the worker is idle |
| `OutboxWorker.Service.ProcessRecipient` | internal/messages/service.go:339-408 | a recipient that is not open is left as loaded; else it is marked, sent or refused, and recorded, each a step of the machine |
| `OutboxWorker.Service.SendRecipient` | internal/messages/service.go:352-407 | the modem is asked exactly once if there is a text and it fits the cap, else not at all; the state is Sent exactly if it accepted |
| `OutboxWorker.Service.ProcessAll` | internal/messages/service.go:313-321 | the modem is asked once for every recipient that was loaded open, for no other, and the results are in their order |
| `OutboxWorker.Service.FailRecipient` | internal/messages/service.go:410-428 | the failure is recorded, or the pass ends |
| `OutboxWorker.Service.SetFinal` | internal/messages/service.go:323-331 | setting the resolved state leaves one more message that cannot be claimed, and no other reopened |
| `OutboxWorker.Service.ProcessPending` | internal/messages/service.go:300-332 | true only after a whole pass, which asked for every recipient loaded open and leaves more messages that cannot be claimed, creations and cancels meanwhile included |
| `OutboxWorker.Service.Drain` | internal/messages/service.go:181-187 | however many messages, up to any fixed number, are created and cancelled meanwhile, the drain loop ends, after no more whole passes than messages were closed |
| `OutboxWorker.Service.ApplyReport` | internal/messages/service.go:209-228 | the report is applied by its reference, phone and state, or nothing changed because no recipient awaits it |
| `OutboxWorker.Service.RederiveAndStore` | internal/messages/service.go:239-275 | the reported message is loaded and, if its recipients resolve to another state, that state is stored, unless the statement fails |
| `OutboxWorker.Service.HandleDeliveryReport` | internal/messages/service.go:197-275 | nothing happens while the service centre retries, if the statement fails or if no recipient awaits the report; else it is applied to the oldest one that does and its message re-derived, each a step of the machine |
| `OutboxWorker.DequeueReopensNone` | internal/messages/service.go:300-309 | a dequeue makes no message claimable |
| `OutboxWorker.FinishCloses` | internal/messages/service.go:323-331 | the end of a pass closes its message |
| `CommandRuns.RunSound` | internal/modem/sms.go:404-477 | every interleaving of the locked sections keeps the barrier, the selection and the gate |
| `CommandRuns.BarrierIsLastDeadline` | internal/modem/sms.go:404-477 | the barrier is set exactly when the last exchange on the wire timed out |
| `CommandRuns.NothingPassesTheBarrier` | internal/modem/sms.go:404-456 | after an exchange that timed out nothing but drains is sent until a drain ended otherwise |
| `CommandRuns.NoSubmitWithoutInit` | internal/modem/sms.go:517-527 | without a successful Init no +CMGS goes over the wire |
| `CommandRuns.StoreCommandHits` | internal/modem/store.go:157-173 | a store command is executed in the store its caller named if and only if no +CPMS took effect unconfirmed since the last confirmed one, or the last such one selected that store |
| `CommandRuns.SelectionCoherent` | internal/modem/store.go:157-288 | as long as a failed +CPMS leaves the modem as it was, a selected store is the modem's preferred one and every read, delete and listing hits its caller's store |
| `CommandRuns.StraySelectMisdirects` | internal/modem/store.go:157-173 | after a +CPMS that timed out but took effect, a delete is executed in the other store |
| `Commands.Commands.DrainLocked` | internal/modem/sms.go:404-428 | a drain only when the barrier is set; it stays set exactly when the drain times out |
| `Commands.Commands.ExecLocked` | internal/modem/sms.go:439-477 | one exchange behind the barrier, with the mapped error |
| `Commands.Commands.SelectStoreLocked` | internal/modem/store.go:157-173 | the store is selected unless empty or selected already, and remembered only when confirmed |
| `Commands.Commands.ReadStoredMessage` | internal/modem/store.go:190-215 | select and read in one section; the PDU is that of the parsed response |
| `Commands.Commands.DeleteStoredMessage` | internal/modem/store.go:232-251 | select and delete in one section |
| `Commands.Commands.ListStoredMessages` | internal/modem/store.go:268-288 | select and list in one section; the indices are those of the parsed response |
| `Commands.Commands.Init` | internal/modem/sms.go:89-134 | the rows go out in their order, and the gate opens exactly after all succeeded and the SIM is ready |
| `CommandLayer.ExecExact` | internal/modem/sms.go:404-477 | a drain first if the barrier is set, the command unless that drain timed out, and the barrier set exactly if the last of them did |
| `CommandLayer.OutcomeExact` | internal/modem/sms.go:456-477 | what a caller gets, answer by answer |
| `CommandLayer.SelectExact` | internal/modem/store.go:157-173 | no +CPMS goes out for a store that is selected already or for the empty name, and a store is remembered exactly if its +CPMS succeeded |
| `CommandLayer.StoreExact` | internal/modem/store.go:190-288 | the command goes out right behind a selection that is confirmed or was not needed, and not at all behind one that failed |
| `StoreParsing.SubmitGivesReference` | internal/modem/sms.go:604-618 | a +CMGS response gives back the reference the modem wrote, whatever leaked into it |
| `StoreParsing.NoLineNoReference` | internal/modem/sms.go:604-618 | without a +CMGS line there is none |
| `Commands.ResponseAccepted` | internal/modem/sms.go:575-618 | so a part whose response has it is accepted under that reference and no other |
| `Commands.Commands.SendPDU` | internal/modem/sms.go:575-618 | one submit section; the result is that of its response or of its error |
| `Commands.PartsSentMeans` | internal/modem/sms.go:550-569 | the part loop ends without error exactly if every part was accepted, and otherwise tells how many were, unless there was only one |
| `Commands.Commands.SendSMS` | internal/modem/sms.go:517-569 | each refusal has its error and submits nothing; 1 to 255 parts are submitted in order until one is refused or the context is cancelled, so with every part accepted it ends without error; one reference per accepted part, or none for a single part that failed |
| `Text.AfterFirst` | internal/modem/store.go:36-39 | cutting takes what follows the first place at which the separator stands |
| `Text.TrimExact` | internal/modem/store.go:46-51 | trimming takes off space at both ends, and no more |
| `Text.AtoiSigned` | internal/modem/store.go:51-54 | a number is read back with its sign, and not if it leaves 64 bits |
| `Text.ItoaDecimal` | internal/inbox/types.go:113-118 | numbers are written in decimal notation |
| `StoreParsing.DropURCHeads` | internal/modem/store.go:91-101 | what is kept is the response, if all else leaked into it: no foreign '+' line, and all other lines in order |
| `StoreParsing.LeaksAreInvisible` | internal/modem/store.go:113-143 | any number of foreign '+' lines at any positions leaves what is read unchanged |
| `StoreParsing.ReadGivesBody` | internal/modem/store.go:113-128 | a read response gives back its PDU, whatever its header holds and whatever leaked into it |
| `StoreParsing.HeaderGivesPdu` | internal/modem/store.go:129-143 | a response of a header alone gives the PDU its fourth field carries if that is octets in hexadecimal, and nothing otherwise |
| `StoreParsing.NoHeaderNoPdu` | internal/modem/store.go:113-122 | nothing is read from a response that does not begin with the header |
| `StoreParsing.ListedIndices` | internal/modem/store.go:293-312 | the loop collects the index of every readable header, in order |
| `StoreParsing.ListingRoundTrip` | internal/modem/store.go:293-312 | a listing gives back exactly the indices written, whatever lines without the prefix stand between its headers |
| `StoreParsing.ReferenceNumbered` | internal/modem/store.go:63-72 | the store of a reference that was read always has a number, 1 for MT and 0 for the others, the one its budget is kept under: the fallback for an unknown name (internal/modem/service.go:735-741) is never taken |
| `StoreParsing.BudgetSharedIff` | internal/modem/store.go:63-72 | two notifications spend one budget if and only if they name one index, of one store or of ME and SM |
| `StoreParsing.ReferenceNamesStore` | internal/modem/store.go:35-60 | a reference that was read names one of the three stores, in upper case |
| `StoreParsing.ReferenceRoundTrip` | internal/modem/store.go:35-60 | a notification of any store, in any case, quoted or not, is read back |

## Left out

- PDU encoding and decoding: whether a stored entry decodes is a fixed property of the entry, and a text is its list of encoded parts or the failure to encode it.
- SHA-256 and its truncation, HMAC signatures, base64, JSON and phone number parsing; the identity stops at the text that is hashed.
- SQL, the truncation of stored times and the page limits: a statement or transaction is one step on exact integers.
- HTTP, API handlers, configuration, metrics other than the counters named in the claims, and logging.
- The storage of settings, which restores nothing after a failed save.
- Inbox listing, retention and Refresh, which emits without the dedupe on purpose.
- Goroutine scheduling below the level of critical sections, panics, and the sleeps between delete attempts.
- The stored row of an inbound message (persistInbound), written before its emission and of no consequence to it.
- Queries of modem and SIM information, the signal parser and the connect loop.
- `time.Sub` saturates after 292 years; durations here are exact.
- Emission.EmitTracked: assumes that no two selected webhooks have one id, which a unique index of the repository ensures.
- WebhookQueue.Repository.DueItems: does not say which of several rows due at the same time come first, because the query does not either.
- WebhookQueue.Repository.Enqueue: does not model the payload, which no other statement changes.
- MessageIdentity.AssembledIdentity: takes a decoded originating address to be a number, or at most eleven characters of an alphabet without the separator (sections 9.1.2.5 and 9.2.3.7 of 3GPP TS 23.040).
- OutboxRepository.Repository.UpdateRecipientState: does not model the error column of recipients, because no statement depends on it; the API shows it.
- OutboxWorker.Service.Drain: if messages were created without end the loop need not end, so it is stated for a number of them that is arbitrary but fixed.
- MessageIdentity.IdentityInjective: covers years up to 9999, the four digits RFC 3339 allows.
- StoreParsing.ReferenceRoundTrip: upper case is modelled for the letters that can become one of a store name.
- Commands.Commands.SendSMS: does not model the delivery report bit of the last part, which is part of the encoding.
