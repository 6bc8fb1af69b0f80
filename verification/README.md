# Payment service: a verified model

The service takes payment requests over HTTP, stores them, and hands them to an in-memory
dispatcher. The dispatcher keeps payments that are linked through shared IBANs in one group
with one worker, so that they are meant to be processed one after another, and lets unrelated
payments run in parallel. A worker's `ProcessTX` moves a payment from the `pending` table to
the `outbox` table in one transaction; a relay sends outbox rows to Kafka; results that come
back are stored. After a restart, pending payments are read back and handed to the dispatcher
again.

This project models three parts of it and proves what they keep.

**The dispatcher** is modelled twice.

- As a step system (`DispatcherSteps`). One step is one action between two points where
  goroutines can interleave. `Do(s, step)` follows `add` and `runWorker` branch by branch:
  `Route` is core/PaymentManagerService.go:94-171, `Acquire` and `GiveUp` the selects at
  112-116, 173-177 and 197-203, `Recheck` 117-139, `LockDrain`, `Take`, `Put` and `EndDrain`
  179-194, `Send` 198; `Recv` and `Finish` are 212-218 and 227-232, `Stop` and `DrainOut`
  219-234, `Release` and `WgDone` the deferred calls at 206-208. `Watch` is the watcher of
  core/entity/paymentGroup.go:58-61, `Shutdown` the cancellation of the root context. The
  state also records, for the proofs only, what was ever sent to, finished by and drained from
  each group, the log of merges, and whether a re-check ever found two different groups and
  moved one IBAN between them (a *split*).
- As objects updated in place (`Dispatcher`). `Add` and `RunWorker` are written as loops over
  fields, and each is shown to take the step system from its old state to its new one.

**The service around it** (`Service`) is a step system over the database, the request topic and
a process that boots, recovers, serves, dispatches, relays, and can crash between any two
steps. Its transactions are the ones that `Repository` and `Outbox` write out statement by
statement.

**The history check of the test helpers** (`History`) is modelled with its loops, shown to be
exact, and connected with runs of the step system (`Timeline`).

## Main results

- Conservation: each payment handed to `add` is in exactly one place, under every interleaving.
- Bounded runs: once calls stop, only finitely many steps remain, and their number is bounded.
- Progress: the work under way always comes to rest by itself. Then each call has returned or
  waits for a slot, for a group whose worker is gone, or in front of a full channel; and unless a
  merger is stuck before a full channel, each accepted payment has been processed or lies in the
  channel of such a group for ever. Exact conditions say when payments can be left behind at all.
- Order: while calls of `add` follow one another, conflicting payments are processed in the order
  of the calls, across merges; recovery processes them oldest first.
- Groups are connected components: two IBANs of one group are always connected by routed
  payments. The converse holds under every schedule exactly if there is no slot, or no payment
  with two IBANs can have one of them taken away by a re-check (`Detachable`); it also holds in
  every state before the first split, and always while calls of `add` follow one another.
- Serial processing. The promise that payments sharing an IBAN are never processed at once
  does not hold for every workload, and this is when it does, for all workloads and all
  schedules. With one worker: always. With two: exactly if no payment would merge the group of
  a payment that a fourth payment shares an IBAN with (`Bridged`). With three or more: exactly
  if sharing an IBAN is transitive on the workload. Besides, it holds on every workload while
  calls of `add` follow one another, as they do during recovery, and outside open merge windows
  as long as no split has occurred.
- From request to message: an accepted request is stored, handed to `add`, sent to the topic and
  recovered with its own amount, identifiers and IBANs, in every run; recovery gives back the
  whole payment exactly if its parties and accounts were new or known as given; a status says how
  far the payment has come; and every valid request that the columns can hold can complete.
- Durability: over every run with crashes, failures and restarts, a confirmed payment is in
  exactly one of `pending` and `outbox`, statuses never move back, each end-to-end identifier
  has at most one request, and while a process lives each pending row has exactly one holder.

## Where the code and its documentation differ

The model follows the code.

- core/entity/dispather.go:8-11 promises that payments with common IBANs are processed strictly
  one after another by one worker. A merge relabels IBANs before the worker of the merged group
  has stopped (core/PaymentManagerService.go:161-177), and a re-check can move one IBAN of a
  group only (core/PaymentManagerService.go:121-128). `Workload` and `TwoWorkers` give the
  schedules that break the promise and the exact conditions under which none does.
- core/entity/dispather.go:15-16 says that all IBANs of a connected component point at one
  group. A re-check that finds two groups points only the IBANs of its own payment at the first
  (core/PaymentManagerService.go:121-128). So a payment k with two IBANs comes to have two
  groups as soon as another payment j has k's IBAN for its debtor, and for its creditor an IBAN
  of a payment that shares none with k. One slot is enough for that, because a cancelled worker
  gives its slot back. Without such a triple, or without a slot, the index is the partition into
  components under every schedule, even if re-checks do split groups (`Splitting`).
- core/entity/paymentGroup.go:15 promises each group a live worker, and
  core/entity/dispather.go:24-25 that a shutdown lets workers read their buffers to the end. The
  worker of a group that its watcher cancels early, or that a shutdown reaches, can return before
  a payment is sent, and the send succeeds all the same. With at least one slot every non-empty
  workload has such schedules of both kinds. No run ever processes a payment that was left behind
  in this way. A merge with such a group, which some schedule has exactly if there is a slot and
  sharing an IBAN is not transitive on the workload, waits until the shutdown. Even if no watcher
  cancels early and nothing is shut down, a payment can be sent to a merged group after its drain
  and stay there; some schedule does that exactly if there are two slots and sharing an IBAN is
  not transitive on the workload (`Stranding`).
- core/entity/paymentGroup.go:17-18 says that nothing is sent to a group once it is cancelled.
  The watcher can cancel a group at any time, and leaves it in the index. So with at least one
  slot every non-empty workload has a schedule that sends to a cancelled group, and every
  workload in which two payments share an IBAN has one that even routes a call to it after the
  cancellation. Of the groups that are cancelled by a merge, only calls routed before the merge
  still aim at them, and such a call exists under some schedule exactly if there is a slot and
  sharing an IBAN is not transitive on the workload (`Cancellation`, `Merging.NoNewSenders`).
- core/entity/paymentGroup.go:16 promises arrival in the order of the calls of `add`. When calls
  overlap, this holds under every schedule exactly if no two payments share an IBAN or there is
  no slot at all. It always holds when calls follow one another, so that recovery processes
  conflicting payments oldest first (`Ordering`).
- core/entity/dispather.go:17 says that after a merge all IBANs point at the surviving group.
  They do so already before the drain; the second relabelling loop never changes anything.
- core/valObj/valobj.go:82-95 reads the statuses `completed` and `failed` back as `processing`,
  so a payment survives being stored and read exactly as long as it has no result
  (`Codec.SurvivesExactlyBeforeResult`).
- adapters/secondary/postgres/peymentRepo.go:35-88 keeps the party and the account that were
  stored first under a BIC or an IBAN. So recovery can rebuild a payment with other party data
  than it was accepted with; `Tables.RecoveryInvertsInsert` says exactly when it does not.
- core/testhelpers/utils.go:121-149 looks records up by name. Its verdict is right for all times
  exactly if each record that shares an IBAN with another one is the last of its name.

## Model

| member | source | states |
|---|---|---|
| Merging.MergesAreAcyclic | core/PaymentManagerService.go:158-168 | in every reachable state no chain of merges returns to its start, and a chain that ends ends in the group that stands for its start |
| MergeForest.ForestIsAcyclic | core/PaymentManagerService.go:158-168 | the same for any log in which both ends of each merge were still roots |
| MergeForest.EdgeSharesRoot | core/PaymentManagerService.go:162-168 | the two ends of a merge have the same root for ever, and the merged group stays one merge further from it |
| MergeForest.RepIsRoot | core/entity/dispather.go:15-18 | what stands for a group was itself never merged away |
| DispatcherInvariants.SecondRelabelIsIdle | core/PaymentManagerService.go:189-193 | the relabelling after the drain leaves the index as it is |
| DispatcherInvariants.StepKeepsInv | core/PaymentManagerService.go:93-239 | every step keeps: one FIFO factorisation for each group, the index never points at a merging group, DrainReady closed only by a stopped worker of a merging group, the mutex held between steps only by a draining call |
| DispatcherInvariants.ReachableInv | core/PaymentManagerService.go:93-239 | the same in every reachable state, with no hypothesis on splits |
| Progress.OnlyCancellationEnds | core/PaymentManagerService.go:213-219 | in every reachable state a worker that has left its loop belongs to a cancelled group or a cancelled root, and a call is rejected only after the root was cancelled |
| Progress.ReturnsWhenRead | core/PaymentManagerService.go:219-234 | when a worker returns, it has closed DrainReady for a merger, or everything ever sent to its group has been processed |
| Progress.RestExplained | core/PaymentManagerService.go:112-203 | when no step but one from outside is possible, each worker has finished or waits with an empty channel, and each call has returned or waits for the mutex, a slot, a dead group or room in a full channel; the mutex is held only in front of a full channel |
| Progress.AcceptedIsProcessedAtRest | core/PaymentManagerService.go:198-236 | at rest with the mutex free, an accepted payment has been processed or lies in the channel of a dead group, never both |
| Progress.RestIsReached | core/PaymentManagerService.go:93-239 | from every reachable state a run without steps from outside, no longer than the fuel of the state, leads to rest |
| Progress.AcceptedIsProcessedInTheEnd | core/PaymentManagerService.go:198-236 | so each accepted payment comes to be processed, or stranded, unless a merger is stuck before a full channel |
| Progress.InTurnAllIsProcessed | core/PaymentManagerService.go:50-60 | when calls of `add` follow one another and workers end in merges only, at rest every accepted payment has been processed |
| Serialisation.HeldPaymentsFollowIndex | core/entity/dispather.go:15-18 | without a split, a payment in the channel, worker, sending call or merger's hand of a group has both IBANs indexed at the root of that group |
| Serialisation.StepKeepsRouted | core/PaymentManagerService.go:104-195 | every step that splits nothing, in particular relabelling and draining, keeps that agreement |
| Serialisation.ConflictNeedsWindow | core/PaymentManagerService.go:158-239 | without a split, payments that share an IBAN are in flight at once only if one is with a merging group whose DrainReady is still open |
| Serialisation.SerialOutsideWindows | core/entity/dispather.go:8-11 | without a split and an open merge window, or without any merge, conflicting payments are strictly serial |
| Workload.TransitiveIsSerial | core/entity/dispather.go:8-11 | with any number of workers, every schedule of a workload on which sharing an IBAN is transitive is serial |
| Workload.OneWorkerIsSerial | core/entity/dispather.go:20-22 | with one semaphore slot every schedule of every workload is serial |
| Workload.BridgedIsNotSerial | core/PaymentManagerService.go:117-130 | with three or more slots, every workload with a bridging payment has a schedule, through a split and without any merge, in which two payments that share an IBAN are in flight at once |
| Workload.SerialExactlyWhenTransitive | core/PaymentManagerService.go:93-239 | with three or more slots all schedules of a workload are serial if and only if sharing an IBAN is transitive on it |
| Cancellation.CancelledGroupIsFedExactly | core/entity/paymentGroup.go:17-18 | a state in which a payment can be sent to a cancelled group is reachable on a workload if and only if there is a slot and the workload is not empty |
| Cancellation.CancelledGroupIsJoinedExactly | core/entity/paymentGroup.go:17-18 | a state in which a call can be routed to an already cancelled group is reachable if and only if there is a slot and two payments of the workload share an IBAN |
| Cancellation.MergedGroupIsFedExactly | core/entity/paymentGroup.go:17-18 | a state in which a call is at its send to a group flagged for a merge is reachable if and only if there is a slot and sharing an IBAN is not transitive on the workload |
| Splitting.IndexIsPartitionExactly | core/entity/dispather.go:15-16 | two indexed or connected IBANs have the same group exactly if routed payments connect them, in every reachable state of a workload, if and only if there is no slot or no payment with two IBANs can be detached |
| Splitting.UndetachableIsPartition | core/PaymentManagerService.go:119-128 | on such workloads the index is the partition into components in every reachable state, splits included |
| Splitting.ComponentFallsApart | core/PaymentManagerService.go:121-128 | on every other workload and with any slot, even one, a state is reachable in which the two IBANs of a routed payment have different groups |
| Splitting.SplitExactly | core/PaymentManagerService.go:119-128 | a re-check that finds two different groups is reachable on a workload if and only if there is a slot and sharing an IBAN is not transitive on it |
| Splitting.HeldFollowsIndexExactly | core/entity/dispather.go:15-18 | held payments have both IBANs indexed at the root of their group in every reachable state of a workload if and only if there is no slot or sharing an IBAN is transitive on it |
| Stranding.GroupLosesItsWorkerExactly | core/entity/paymentGroup.go:15 | a state before any shutdown, in which the index points at a group with accepted payments whose worker has returned, is reachable if and only if there is a slot and a payment |
| Stranding.ShutdownStrandsExactly | core/entity/dispather.go:24-25 | a state after a shutdown, in which every worker has finished, none was cancelled before, and an accepted payment lies in a channel, is reachable if and only if there is a slot and a payment |
| Stranding.MergeStrandsExactly | core/PaymentManagerService.go:179-198 | a state without a shutdown, in which workers have left their loops for mergers only and an accepted payment lies in a channel that nobody reads any more, is reachable if and only if there are two slots and sharing an IBAN is not transitive on the workload |
| Stranding.StrandedIsNeverProcessed | core/PaymentManagerService.go:210-234 | an accepted payment in the channel of such a group stays there, and ProcessTX is not called for it, over every run |
| Stranding.MergeWaitsInVainExactly | core/PaymentManagerService.go:173-177 | a call that waits for the DrainReady of a group whose worker has returned without a merge is reachable if and only if there is a slot and sharing an IBAN is not transitive on the workload |
| Stranding.DeadGroupIsNeverDrained | core/PaymentManagerService.go:173-177 | such a call waits over every run, until a shutdown rejects it |
| Stranding.ChannelTakesHundred | core/consts/consts.go:7 | no channel ever holds more than a hundred payments; a hundred and one payments between the same accounts can fill one with a hundred, and the next call waits |
| Ordering.OneCallAtATimeIsInOrder | core/entity/paymentGroup.go:16 | when calls of `add` follow one another, ProcessTX is called for a payment only after every conflicting payment of an earlier call has been through it, merges, early cancellations and shutdown included |
| Ordering.InCallOrderExactly | core/entity/paymentGroup.go:16 | when calls may overlap, that order holds under every schedule of a workload if and only if there is no slot or no two payments share an IBAN |
| TwoWorkers.Overtake | core/PaymentManagerService.go:158-177 | every workload in which a fourth payment can overtake a payment whose group is being merged has a schedule, without a split and through an open merge window, in which the two are in flight at once |
| TwoWorkers.MergeWindowOverlap | core/PaymentManagerService.go:161-177 | with two slots and no split, two payments between the same accounts can be in flight at once, one of them with a group whose merge window is open |
| TwoWorkers.Corner | core/PaymentManagerService.go:119-128 | on other workloads the debtor's group of a bridging payment has only ever had one payment |
| TwoWorkers.UnbridgedIsSerial | core/PaymentManagerService.go:93-239 | on other workloads every schedule with at most two slots is serial, splits, early cancellations and dead groups included |
| TwoWorkers.SerialExactlyWhenUnbridged | core/PaymentManagerService.go:93-239 | with two slots all schedules of a workload are serial if and only if no payment spans two others that share nothing while a fourth shares an IBAN with the one on the debtor's side |
| TwoWorkers.ParallelExactly | core/entity/dispather.go:11 | two payments in flight at once are reachable on a workload if and only if there are at least two slots and two payments that share no IBAN |
| Sequential.OneCallAtATimeIsSerial | core/PaymentManagerService.go:50-60 | when calls of `add` follow one another nothing is ever split and conflicting payments are serial, even while groups merge |
| Sequential.OneCallAtATimeKeepsComponents | core/PaymentManagerService.go:104-168 | when calls of `add` follow one another, two IBANs have the same group if and only if routed payments connect them |
| Sequential.StepInTurn | core/PaymentManagerService.go:93-239 | the invariant behind it: merged groups but the one being emptied hold nothing, and no two groups hold related payments except while one is poured into the other |
| Components.GroupsAreComponents | core/entity/dispather.go:15-17 | IBANs of one group are connected by routed payments; in every state before the first split connected IBANs are in one group (for which workloads they always are, see Splitting.IndexIsPartitionExactly) |
| Components.StepKeepsPartition | core/PaymentManagerService.go:104-168 | every step keeps both directions of it |
| Conservation.StepConserves | core/PaymentManagerService.go:179-236 | no step loses or doubles a payment, and a call of `add` brings in exactly one |
| Conservation.ExactlyOnePlace | core/PaymentManagerService.go:179-236 | in every reachable state each payment is in exactly one of: its call, rejected, a merger's hand, one channel, one worker, one list of finished payments; so it meets ProcessTX at most once |
| Termination.StepBurns | core/PaymentManagerService.go:93-239 | every step other than a new call lowers one measure of unrouted calls, payments weighted by forest depth, and call and worker phases |
| Termination.RunsAreBounded | core/PaymentManagerService.go:96-102 | from any reachable state, runs without new calls are no longer than that measure, with or without a shutdown |
| Termination.LifeIsBounded | core/PaymentManagerService.go:93-239 | with n calls the whole life of the dispatcher takes at most n(2n + 11) + 1 steps |
| Semaphore.ReachableCounted | core/PaymentManagerService.go:112-137 | semaphore tokens equal calls between acquire and re-check plus workers that have not released theirs, never more than the capacity, and the wait group equals the workers that have not finished |
| Semaphore.ReleasesNeverBlock | core/PaymentManagerService.go:206-208 | releasing a token never blocks, the wait group never goes below zero, and once it is zero nothing is in flight |
| Merging.MergeOwnership | core/PaymentManagerService.go:161-194 | a merging group is never in the index again, is merged once and by one call, and after DrainReady is closed its worker neither receives nor closes it again |
| Merging.DrainOwnership | core/PaymentManagerService.go:179-194 | only the merger that holds the mutex takes payments out of a merged group, and only after DrainReady is closed |
| Merging.NoNewSenders | core/PaymentManagerService.go:161-171 | no step gives a call a group that is flagged for a merge as its target |
| Merging.DrainStep | core/PaymentManagerService.go:180-188 | while the merger drains, payments taken plus payments still to be found do not grow, and each iteration takes exactly one |
| Merging.DrainIsBounded | core/PaymentManagerService.go:179-188 | the drain loop takes at most what the buffer held plus one payment for each call already on its way to the group |
| Fifo.FifoWithinGroup | core/entity/paymentGroup.go:14-15 | from the send on, what was sent to a group is, in order, what was processed, what is in flight, what was drained, what is buffered; the middle two never coexist |
| Fifo.FifoAcrossMerge | core/PaymentManagerService.go:179-188 | payments moved by a merge keep their order in the sends of the other group, whatever is sent in between |
| Dispatcher.Group.constructor | core/entity/paymentGroup.go:49-63 | a new group is empty, live, not cancelled and not merging |
| Dispatcher.Group.Push | core/PaymentManagerService.go:198 | a send puts the payment at the end of the buffer and changes nothing else |
| Dispatcher.Group.Pop | core/PaymentManagerService.go:183-184 | a drain takes the first payment of the buffer |
| Dispatcher.Dispatcher.constructor | core/entity/dispather.go:32-38 | a new dispatcher is the initial state of the step system |
| Dispatcher.Dispatcher.Relabel | core/PaymentManagerService.go:164-168 | the loop points exactly the IBANs of one group at the other |
| Dispatcher.Dispatcher.BeginMerge | core/PaymentManagerService.go:161-171 | flagging, relabelling and cancelling amount to the merge of the step system |
| Dispatcher.Dispatcher.Recheck | core/PaymentManagerService.go:117-139 | the second look-up joins a group it finds, giving the slot back, or opens a group under both IBANs with a worker of its own |
| Dispatcher.Dispatcher.Pour | core/PaymentManagerService.go:180-188 | the drain loop empties the merged group's channel into the other exactly if both contents fit into one buffer, and otherwise stops with the mutex held |
| Dispatcher.Dispatcher.RunWorker | core/PaymentManagerService.go:206-239 | a worker ends exactly if its group or the root is cancelled; a merging group's worker closes DrainReady, any other has then processed everything ever sent, in order |
| Dispatcher.Dispatcher.Leave | core/PaymentManagerService.go:206-208 | the slot is released before the wait group is told, and neither blocks |
| Dispatcher.Dispatcher.Add | core/PaymentManagerService.go:93-204 | the outcome is a function of the old state, of how many payments a cancelled worker still takes, and of whether a shutdown comes while the call waits in a select; a call stuck in the drain loop sees no shutdown; the new state is reached by a run of the step system, no earlier call is disturbed, and a call that returns leaves the dispatcher ready |
| Dispatcher.Dispatcher.CancelWhileWaiting | core/PaymentManagerService.go:112-116 | a call that waits for a slot, for DrainReady or for room in a channel is rejected once the root is cancelled |
| Dispatcher.Dispatcher.GroupsAreComponentsHere | core/entity/dispather.go:8-18 | in every state of the object two IBANs map to the same group object if and only if they are connected, and processing is serial |
| Codec.AcceptedExactlyWhenValid | core/entity/paymentTx.go:47-126 | a request, or a stored record, becomes a payment if and only if every field is in form |
| Codec.AcceptedAsRequested | core/entity/paymentTx.go:61-81 | an accepted payment is pending and has the amount, currency, end-to-end identifier and type of the request, the debtor account and party of its debtor fields and the creditor account and party of its creditor fields |
| Codec.TextForms | core/valObj/valobj.go:103-126 | currencies are exactly the texts of three capital letters, end-to-end identifiers exactly those of one to thirty-five letters, digits and dots |
| Tables.TextsNameStatuses | core/valObj/valobj.go:68-75 | statuses and the texts that the tables accept for them correspond one to one |
| Codec.SurvivesExactlyBeforeResult | core/valObj/valobj.go:82-95 | a payment is rebuilt unchanged from its own record if and only if the record is in form and the payment is pending or processing; one with a result is read back as processing |
| Codec.RecoveryInvertsStorage | core/entity/paymentTx.go:83-139 | a payment accepted from a request is rebuilt unchanged from its own record |
| Repository.Repository.InsertTX | adapters/secondary/postgres/peymentRepo.go:25-127 | with a failure possible at every statement, and a commit whose reply is lost, either all six inserts are committed or nothing is; it succeeds exactly if no constraint stands against the record and nothing fails |
| Repository.Repository.ProcessTX | adapters/secondary/postgres/peymentRepo.go:250-327 | either the payment moves from pending to the outbox as processing, or nothing changes, and a commit can take effect although the call reports an error; besides failures only an existing outbox row stands against it |
| Repository.Repository.PersistProcessResult | adapters/secondary/postgres/peymentRepo.go:230-248 | the status of a known payment is replaced, by completed or failed as the result says, even if the reply is lost; an unknown payment or status is an error and changes nothing |
| Repository.Repository.LoadPendingPayments | adapters/secondary/postgres/peymentRepo.go:129-228 | unless the query, the scan of a row or the end of the rows fails, and then with no result, the result has each joined pending row exactly once, oldest first |
| Repository.RecoveryListIsComplete | adapters/secondary/postgres/peymentRepo.go:162-168 | over well-kept tables the list names exactly the pending payments and every record decodes |
| Tables.PendingIsRecoverable | adapters/secondary/postgres/peymentRepo.go:162-168 | over well-kept tables the five-table join never drops a pending payment, and recovery rebuilds it with its identifiers, accounts, currency and amount although parties and accounts belong to their first writer; what it rebuilds would be stored as the joined record |
| Tables.InsertKeepsOk | adapters/secondary/postgres/peymentRepo.go:35-118 | a committed insert keeps the tables well kept: registries, foreign keys, unique identifiers, and the ledger of pending and outbox |
| Tables.InsertedIsJoined | adapters/secondary/postgres/peymentRepo.go:90-104 | the payment just stored is joined again with the amount, currency, type, identifiers and IBANs of its record, and recovery rebuilds it with these |
| Tables.JoinInvertsInsert | adapters/secondary/postgres/peymentRepo.go:35-88 | the join gives back the whole record if and only if its parties and accounts were new or known exactly as it has them |
| Tables.RecoveryInvertsInsert | core/entity/paymentTx.go:83-126 | recovery gives back an accepted payment, parties included, if and only if they were new or known as given |
| Tables.RefusedExactly | migrations/000003_create_tx_history.up.sql:2-19 | the tables take an accepted request if and only if identifier, type and names fit their columns and neither identifier is taken |
| Tables.ProcessKeepsOk | adapters/secondary/postgres/peymentRepo.go:264-318 | so does a committed ProcessTX |
| Tables.PersistKeepsOk | adapters/secondary/postgres/peymentRepo.go:230-248 | so does a stored result of a requested payment |
| Tables.MarkKeepsOk | adapters/secondary/outbox/outbox.go:62-77 | so does marking rows as sent |
| Outbox.Store.FetchUnsent | adapters/secondary/outbox/outbox.go:30-60 | the batch is the oldest unsent rows up to the limit, each once, oldest first |
| Outbox.Store.MarkSent | adapters/secondary/outbox/outbox.go:63-77 | exactly the named rows are marked, or none on a failure; an empty list issues no statement |
| Outbox.Worker.RunOnce | adapters/secondary/outbox/outboxWorker.go:45-83 | a tick sends the batch event by event past malformed and refused ones, and marks exactly the acknowledged rows unless marking fails |
| Outbox.BatchKeepsRelay | adapters/secondary/outbox/outboxWorker.go:55-82 | whatever becomes of the events, a row marked as sent has its message in the log, every message is the request of an outbox row under its key, and exactly acknowledged rows stop being unsent |
| Outbox.EmittedOldestFirst | adapters/secondary/outbox/outbox.go:34-36 | a tick sends its messages in the order in which their rows were written |
| Outbox.UnackedStaysFetchable | adapters/secondary/outbox/outbox.go:34-36 | a row not acknowledged is in the next batch unless older rows fill it |
| Ticks.TickIsARun | adapters/secondary/outbox/outboxWorker.go:45-83 | what a tick does to tables and topic, for every batch and every fate of its events, is a run of the relay's steps in the composed system |
| Durability.StepKeepsOk | cmd/server/main.go:142-171 | every step of the composed system, crashes included, keeps its invariant, and the dispatcher inside stays one that its own step system reaches |
| Durability.EveryRun | core/PaymentManagerService.go:44-91 | every run keeps it and only moves the durable state forward: parties and accounts stay as first stored, and of a payment only the status and its time change |
| Durability.ConfirmedPaymentsSurvive | adapters/secondary/postgres/peymentRepo.go:264-318 | over any run a confirmed payment stays in exactly one of pending and outbox, keeps all its fields but the status and its time, stays requested with the same request once requested, and never becomes pending again or loses a result |
| Durability.OneRequestPerEte | migrations/000003_create_tx_history.up.sql:15 | in every reachable state at most one outbox row and one kind of message exists for an end-to-end identifier, keyed by its transaction identifier |
| Durability.RelayIsSafe | adapters/secondary/outbox/outboxWorker.go:57-82 | over any run with send failures and crashes, a row is unsent or its message is in the topic, and every message is the request of a committed payment |
| Durability.CommitsOnce | migrations/000005_create_outbox.up.sql:9 | ProcessTX commits at most once for a payment over all process lives |
| Durability.OutboxKeyIsFree | adapters/secondary/postgres/peymentRepo.go:309-315 | the insert into the outbox never meets an existing key |
| Durability.EveryRecordDecodes | core/PaymentManagerService.go:50-55 | recovery never meets a record that it cannot decode |
| Durability.OneHolder | core/PaymentManagerService.go:44-91 | while a process lives each pending row is in exactly one of: unknown to it until the next boot, queued for recovery, in a request about to call `add`, or one place of the dispatcher |
| Lifecycle.EveryRowIsHeld | core/PaymentManagerService.go:44-91 | after a successful load, and until the process ends or a reply of InsertTX is lost, each pending row is queued, due for a call of `add`, or in the dispatcher |
| Lifecycle.ForgottenWhen | core/PaymentManagerService.go:75-84 | a pending row becomes unknown to the process only by a boot or by an InsertTX whose reply is lost, and none is unknown after a load |
| Durability.DroppedUntilReboot | core/PaymentManagerService.go:50-60 | a pending row whose payment was rejected, or whose ProcessTX returned without committing, stays pending and with that holder over every run in which the process does not end |
| Durability.DispatchedPaymentsAreStored | core/PaymentManagerService.go:206-236 | a payment in the dispatcher has a pending row until its ProcessTX commits and an outbox row from then on, and only a payment that reached a worker has committed |
| Durability.RecoveryIsSerial | cmd/server/main.go:156-171 | until HTTP opens, no two conflicting payments are in flight and no group is split |
| Durability.RecoveryIsInOrder | adapters/secondary/postgres/peymentRepo.go:168 | until HTTP opens, ProcessTX is called for a payment only when every older pending payment that shares an IBAN with it has been handed over and has been through ProcessTX before |
| Durability.ReloadFindsEverything | core/PaymentManagerService.go:44-63 | after a crash and a successful reload the recovery queue holds exactly the pending payments |
| Lifecycle.ConfirmedIsHandedOver | core/PaymentManagerService.go:75-84 | after an InsertTX with its reply the call of `add` is due, and it adds exactly the payment of the request, with creditor and debtor in their places |
| Lifecycle.StaysDue | core/PaymentManagerService.go:81 | it stays due until it is made or the process ends |
| Lifecycle.RequestedAsAccepted | adapters/secondary/postgres/peymentRepo.go:287-315 | over any run after the commit of InsertTX, crashes included, the stored payment, its call of `add`, its outbox row, its messages and what recovery rebuilds carry the identifiers and IBANs of the request, and the first and the last also its amount and currency |
| Lifecycle.StatusTellsTheWay | adapters/secondary/postgres/peymentRepo.go:265-274 | in every reachable state exactly the pending rows have status pending, a payment in processing has an outbox row written at its last change, and one with a result has its request in the topic |
| Lifecycle.OpensAfterRecovery | cmd/server/main.go:156-171 | HTTP opens only after every pending payment has been handed over and every call of `add` has returned, or after the load failed |
| Lifecycle.ServesAfterFailedLoad | cmd/server/main.go:156-171 | after a failed load a valid request that the tables take is stored and handed to `add` |
| Lifecycle.CrashAndReload | core/PaymentManagerService.go:44-63 | from every state of a living process a crash, a boot and a load lead to a fresh dispatcher over the same tables and topic, with exactly the pending payments queued |
| Lifecycle.CommitIsPossible | adapters/secondary/postgres/peymentRepo.go:309-315 | while a worker is inside ProcessTX with an uncommitted payment, nothing in the tables stands against the commit |
| WholeLife.EveryRequestCanComplete | cmd/server/main.go:142-171 | from empty tables, with a slot and a batch of one, every valid request that fits the columns can be stored, processed, sent exactly once and given either result, which a later one may replace, with the request in each place as it was asked for |
| WholeLife.RequestCanBeSentTwice | adapters/secondary/outbox/outboxWorker.go:72-82 | a send that is refused although it was delivered is repeated, so that the topic can hold the same request twice |
| History.BuildConflictGraph | core/testhelpers/utils.go:32-52 | the edges are the pairs of records that share an IBAN, in order, and neighbours are exactly the conflicting records |
| History.EdgeNames | core/testhelpers/utils.go:32-63 | an edge names an earlier and a later record and lists exactly the IBANs that they share |
| History.SharedIbans | core/testhelpers/utils.go:54-63 | the result is empty exactly if the records share no IBAN |
| History.PairsAreExact | core/testhelpers/utils.go:37-50 | the edges are exactly the pairs of records that share an IBAN, the parallel pairs exactly those that share none and overlap, each once and in loop order |
| History.CommonMs | core/testhelpers/utils.go:133-146 | the reported time is the largest number of milliseconds that both records last from some common moment on |
| History.IndexByName | core/testhelpers/utils.go:122-125 | each name is mapped to its last record |
| History.IsConflicting | core/testhelpers/utils.go:69-76 | for any two indices the scan succeeds exactly if they are those of two different records that share an IBAN |
| History.CheckSafety | core/testhelpers/utils.go:121-149 | the violations report exactly the edges whose named records overlap, in order, with the common time |
| History.ViolationNames | core/testhelpers/utils.go:121-149 | a violation is about two overlapping records under the names of an earlier and a later record that share an IBAN, with their common time |
| History.SafetyIsExact | core/testhelpers/utils.go:121-149 | with distinct names there is no violation if and only if no two records that share an IBAN overlap |
| History.SafetyIsExactWhenNamedLast | core/testhelpers/utils.go:121-149 | for every assignment of times to given payments there is no violation if and only if no two records that share an IBAN overlap, if and only if all records that share an IBAN with another one are the last of their names |
| History.NamesakesRaiseAlarm | core/testhelpers/utils.go:122-131 | for every pair of namesakes that share an IBAN there are times without an overlap for which the safety check reports one |
| History.NamesakesHideOverlap | core/testhelpers/utils.go:122-131 | for every other conflicting pair of which one is not the last of its name there are times with an overlap for which the safety check reports nothing |
| History.VerifyProcessingOrder | core/testhelpers/utils.go:454-485 | the order check succeeds if and only if the safety check finds nothing, whatever the names |
| History.CheckParallelism | core/testhelpers/utils.go:219-246 | the pairs are exactly the overlapping records that share no IBAN, and the flag says whether any two records share none |
| Timeline.ObserverIsRight | core/testhelpers/utils.go:121-149 | along a serial run, intervals of conflicting payments noted by an observer never overlap |
| Timeline.ObserverMissesNothing | core/testhelpers/utils.go:121-149 | along any run every processed payment has exactly one noted interval, from the step in which a worker took it to the step in which ProcessTX returned |
| Timeline.HistoryIsComplete | core/testhelpers/utils.go:121-149 | in the history of a serial run each processed payment has exactly one record, with its own name, accounts and times |
| Timeline.HistoryIsAccepted | core/testhelpers/utils.go:121-149 | the history of every run that stays serial passes the safety check under any clock that does not run backwards |
| Timeline.TransitiveRunsAreSerial | core/testhelpers/utils.go:121-149 | every run of a transitive workload is such a run |
| Timeline.WindowFreeRunsAreSerial | core/testhelpers/utils.go:121-149 | so is every run without a split and an open merge window |
| Timeline.OneCallAtATimeRunsAreSerial | core/PaymentManagerService.go:50-60 | so is every run with one call of `add` at a time |

## Left out

- Group.Wg: the counter of the watcher at core/entity/paymentGroup.go:58-61 is replaced by a cancel step that is enabled at any time; a panic from a negative counter is a crash of the process.
- Fairness and time: progress is stated for runs that go on until nothing moves; how long a step takes, and that a ready step is ever taken, is not modelled.
- Dispatcher.Dispatcher.Add: runs without interruption, so a call that blocks, and that no shutdown releases, is not resumed, and calls do not overlap; while it waits for DrainReady, the worker of the merged group runs to its end, taking a chosen number of payments before it sees the cancellation. Overlapping and resumed calls are in the step system only.
- Select with several ready branches: every ready branch is a possible step; no fairness is modelled.
- Service.Settle: a stored result answers a message of the topic and is completed or failed, as ProcessService/main.go:96-107 sends them.
- HTTP handlers, router, configuration, logging and the audit query: no state of their own.
- Kafka: an append-only topic; consumer groups, offsets and partitions are library behaviour.
- SQL text, pools, row locks, SKIP LOCKED, isolation levels and time zones: tables are maps with constraints, and transactions commit atomically.
- Column padding and decimal rounding: CHAR columns are not padded, and amounts are exact reals that fit their column.
- JSON and UUIDs: payloads and identifiers are values; the payload of an outbox row is always well formed in the composed system, because ProcessTX writes it; a malformed one is an event that the relay skips.
- Texts: ASCII, one character for each byte.
- Request payloads: of a processing request only its identifiers and the two IBANs are kept.
- CheckLiveness, VisualizeTime, the builders and mocks of the test helpers, the load generator and the processing stub.
