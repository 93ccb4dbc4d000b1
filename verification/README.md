# Verified model of the distributed KV scheduler

A master generates tasks, hands them to workers, collects results and stores one entry per finished task.
Workers queue what they get, process it with occasional failures, and pass surplus tasks to each other
under at-least-once delivery. This project models that system in Dafny, layer by layer, and proves what each
layer and the whole of them keep in every run.

## Layers

- **Ready queue.** `ReadyQueue.dfy` is the mutable queue, `QueueSpec.dfy` the same operations on values,
  `QueueLaws.dfy` their joint invariant over all runs, `QueueBalance.dfy` what one undisturbed balance does.
- **Workers and transfers.** `NodeSpec.dfy` gives one worker as sections, each run under a lock or on one
  thread; `ClusterSpec.dfy` interleaves the sections of any number of workers over a network that may lose,
  delay or redeliver any request or answer. A copy is *firm* when it is queued, in processing with no result
  sent, or reserved for a request its receiver has not taken. `ClusterLaws.dfy`, `ClusterCopies.dfy` and
  `ClusterRuns.dfy` prove the protocol invariant and conservation; `ClusterWitness.dfy` and `ClusterTrace.dfy`
  follow copies by assignment label. `P2P.dfy` and `WorkerRuntime.dfy` are the mutable services, proved to be
  made of exactly these sections.
- **Master.** `MasterRuntime.dfy` keeps the source's tables, deque, retry heap and worker records and refines
  the locked sections of `MasterSpec.dfy`; `MasterLaws.dfy`, `MasterRuns.dfy`, `MasterHistory.dfy`,
  `MasterProgress.dfy` and `MasterCompletion.dfy` prove the partition invariant, the accounts, the step bound,
  what assignments owe to the past, progress and completion.
- **System.** `SystemSpec.dfy` joins master, workers and FIFO channels, `SystemLaws.dfy` is its invariant, and
  `Outcomes.dfy` says what single steps mean for a task.
  `Astray.dfy` follows the tasks that are nowhere; `LostTasks.dfy`, `Spots.dfy` and `LosingSteps.dfy` those that
  cannot come back, and `Recovery.dfy` proves that all others can. `EndToEnd.dfy` collects the theorems;
  `Forgetting.dfy`, `LateAnswer.dfy` and `WorkerEnds.dfy` have the runs that lose a task; `Projection.dfy` carries
  the results of each layer over.
- **Support.** `Clock.dfy`, `Timing.dfy`, `Framing.dfy`, `Stats.dfy`, `ResultCount.dfy`, `Models.dfy`,
  `Generation.dfy`, `Basics.dfy`.

Numbers of tasks and workers and the queue capacity are arbitrary unless the source fixes them. Randomness,
peers' replies, fresh request ids, times and the visiting order of sets are parameters or nondeterministic
choices. Time is `real`. A worker may end at any time, and takes no step after that; the master notices by a failed
send or a failed receive, at any later time, and reads what the worker had sent up to any point.

## What turned out not to hold

- *An assigned task is always somewhere.* A worker drops a TASK it still has an id for
  (src/kvstore/worker/runtime.py:191-194), also when its own copy is reserved for a transfer, handed over, or
  reported but not marked done; and what a worker has is gone when it ends. `SystemLaws.StaysExactly` says by
  exactly which steps a task goes astray, `Astray.ReturnsExactly` by exactly which it comes back, and
  `EndToEnd.NoTaskForgotten` puts both together into an exact account over whole runs.
- *A task that is nowhere comes back.* It may stay assigned to `a` in every continuation, short of a disconnect of
  `a`. This is so exactly when nothing is left that could yield a copy or a result (`Recovery.StuckExactly`), and
  `LosingSteps.LosesExactly` lists the steps that lead there, `EndToEnd.LostExactly` over whole runs. Runs in which
  no worker ends and nothing is lost in the network get there: `Forgetting.TaskForgotten` by a refusal,
  `LateAnswer.LateAnswerForgets` by an answer that arrives after one.
- *A disconnect frees what the lost worker had.* The master requeues what is assigned to that worker
  (src/kvstore/master/runtime.py:376-381), not what it had from others by transfer. `WorkerEnds.EndingExactly` says
  exactly which tasks a worker's end frees and which it leaves held for good, and `WorkerEnds.EndingHoldsTask` is a
  run that loses a task so.
- *A connected worker with room keeps the work going.* A worker never gets back a task it failed last, and a
  blocked retry queue also blocks all normal tasks. With one worker left this stalls exactly when every retry
  task last failed there (`MasterProgress.SoleWorkerServes`, `MasterProgress.StalledForever`); one failure is
  enough to get there (`MasterProgress.OneFailureStalls`).
- *Taking a task keeps the queue's invariant.* It does exactly when the previous one was marked done
  (`QueueLaws.DequeueInv`), which the process loop respects.

## Model

| member | source | states |
|---|---|---|
| EndToEnd.NoTaskForgotten | src/kvstore/worker/runtime.py:179-274 | in every run of master, workers and channels, with P2P losses, redeliveries, disconnects and workers ending, a task held as assigned to `a` has an undelivered TASK to `a`, a firm copy labelled `a` at a worker that runs, or a result labelled `a` that the master will still read, exactly if it is not in the account of astray tasks; while all workers run, a task that is nowhere was refused as a duplicate since its assignment |
| EndToEnd.LostExactly | src/kvstore/master/runtime.py:376-381 | after every run, a task stays assigned to `a` in all continuations that do not disconnect `a`, exactly if some step of the run lost it and the assignment was not broken since |
| SystemLaws.StaysExactly | src/kvstore/worker/runtime.py:191-194 | one step: a task that is somewhere and still assigned stays somewhere, except exactly when `a` refuses its current TASK with no firm copy and no result labelled `a` about; when the one worker ends that has the firm copies or is still to read the TASK, with no result about; or when the master stops reading the one connection with results, with nothing else about |
| Astray.ReturnsExactly | src/kvstore/worker/p2p.py:155-171 | one step: an assigned task that is nowhere comes back exactly when, at a worker that runs, `a` admits or overflows on an older TASK for it, a batch with a copy labelled `a` is taken, or a sender takes back such a copy after its receiver has taken it |
| Astray.ExactRun | src/kvstore/worker/runtime.py:179-216 | so the set of astray tasks, kept step by step, is exact along every run |
| Spots.TraceVanishes | src/kvstore/worker/p2p.py:155-171 | within the workers, the last trace of an assignment, a copy that may still be reported or a batch on its way, vanishes exactly when the accepting answer for its batch is read, or when the batch is refused |
| LosingSteps.LosesExactly | src/kvstore/worker/runtime.py:191-194 | one step: an assigned task that was not lost is lost exactly by the refusal of its last TASK, the answer that gives its last copy away, the refusal of its last batch, the end of the worker that alone has what is left, its assignment to a worker that has ended, or the end of the one connection with its results, each with nothing else left |
| Recovery.StuckExactly | src/kvstore/master/runtime.py:283-341 | in every reachable state, a task stays assigned to `a` in all continuations that do not disconnect `a`, exactly if it is assigned to `a` and no TASK, trace or result of the assignment is left |
| Recovery.CopyEnds | src/kvstore/worker/runtime.py:218-274 | if a worker that runs has a copy it may still report, some continuation ends the assignment: the worker settles its transfer, works off its queue and reports, and the master reads |
| Recovery.BatchEnds | src/kvstore/worker/p2p.py:220-242 | the same for a batch on its way: its receiver first comes to rest, and then takes it |
| Recovery.OrderEnds | src/kvstore/worker/runtime.py:179-216 | the same for a TASK anywhere in the channel to its worker |
| WorkerEnds.EndingExactly | src/kvstore/master/runtime.py:371-382 | when a worker ends, is disconnected and is read no more, exactly the tasks assigned to it are requeued; a task assigned to another worker stays assigned, and is held for good exactly if everything that was left of it was with the worker that ended |
| WorkerEnds.EndingHoldsTask | src/kvstore/master/runtime.py:376-381 | this happens: from every start with one task and two workers, ten ordinary steps end with the task held for good by a worker that runs, though it was never refused: its copy was handed over, and the receiver ended |
| LosingSteps.LostStep | src/kvstore/master/runtime.py:376-381 | a task is lost after a step exactly if it is still assigned, and was lost before or the step loses it |
| EndToEnd.StoreAndCopies | src/kvstore/master/runtime.py:283-304 | in every such run the store is exactly the key and value of the done tasks, and the conservation law holds for every task |
| EndToEnd.LaunchBegins | src/kvstore/master/runtime.py:105-111 | every set of generated tasks and of registered workers is a start of these runs |
| LostTasks.ForgottenWasRefused | src/kvstore/worker/runtime.py:191-194 | while all workers run, an assigned task with nothing left that could end the assignment can only come from a duplicate refusal |
| LostTasks.ForgottenStep | src/kvstore/worker/runtime.py:179-216 | no step other than disconnecting its worker brings such a task back |
| LostTasks.ForgottenForever | src/kvstore/master/runtime.py:376-381 | in any continuation that does not disconnect its worker, such a task stays assigned and is never stored |
| Forgetting.TaskForgotten | src/kvstore/worker/runtime.py:191-194 | tasks do get lost by a refusal: from every start with one task and two workers, twelve ordinary steps in which no worker ends leave the task refused as a duplicate and held for good |
| LateAnswer.LateAnswerForgets | src/kvstore/worker/p2p.py:155-171 | and by an answer: from every start with one task and two workers, a failure that overtakes the answer of a transfer sends the task back to the worker that still reserves it; after the refusal the task is nowhere but some continuation still ends the assignment, after the late answer none does |
| Forgetting.OneCycle | src/kvstore/worker/runtime.py:218-274 | assign, read, take, fail, read the failure: the five steps are possible and leave the task retrying, last failed at that worker, while the worker has not marked it done |
| SystemLaws.DoInv | src/kvstore/master/runtime.py:283-383 | every single action of the system keeps the master invariant, the cluster invariant, conservation, the wiring of the channels and the traceability of every assigned task |
| SystemLaws.ExecuteInv | src/kvstore/master/runtime.py:283-383 | so does every run |
| Outcomes.SentOutcome | src/kvstore/master/runtime.py:399-405 | one TASK goes to the chosen worker, under its name: the head of the retry queue with priority, else the head of the deque without |
| Outcomes.ReadOutcome | src/kvstore/worker/runtime.py:179-216 | the worker refuses a known id on record, answers an overflow if its queue is full, and else queues the stamped task in the class it was sent for |
| Outcomes.ReportOutcome | src/kvstore/worker/runtime.py:246-268 | a report goes out once, under the task's own label, as the success or failure it is |
| Outcomes.ResultOutcome | src/kvstore/master/runtime.py:283-341 | a result read while its assignment holds ends it: a success stores the value; a failure queues the task behind all other retries, marked with its sender, and counts as an attempt unless it was an overflow |
| Outcomes.StaleOutcome | src/kvstore/master/runtime.py:290-296 | a result that names a worker which does not hold the task changes nothing |
| Outcomes.SuccessIsStored | src/kvstore/master/runtime.py:299-302 | what a worker finishes while the assignment holds, and the master reads, is in the store under the task's key |
| Projection.MasterRun | src/kvstore/master/runtime.py:283-431 | the master's part of any system run is a possible run of its locked sections, ending in the same master |
| Projection.ClusterRun | src/kvstore/worker/p2p.py:103-251 | the workers' part of any system run is a run of the P2P layer, ending in the same cluster |
| Projection.EveryLayer | src/kvstore/master/runtime.py:283-431 | in every system run the account balances, the number of effective master steps is bounded by 2N + (N + 1)W + 2F, no confirmation removes a live copy, and no request is queued twice |
| ClusterRuns.EveryRunConserves | src/kvstore/worker/p2p.py:135-180 | conservation under any interleaving, loss, delay and redelivery: firm copies over all workers + results reported = admissions from the master + transfers both taken by the receiver and taken back by the sender |
| ClusterRuns.NothingLost | src/kvstore/worker/p2p.py:155-171 | a task admitted more often than reported has a firm copy somewhere; admitted once and never doubled, it has exactly one holder until its one report and none after |
| ClusterRuns.WithoutAckLoss | src/kvstore/worker/p2p.py:155-171 | a run that gives up on no request whose batch was or is later taken doubles nothing: copies and reports make up the admissions, and a task admitted once has exactly one holder until its one report |
| ClusterRuns.ConfirmSafe | src/kvstore/worker/p2p.py:170-171 | in every run, at each confirmation the receiver has accepted exactly those ids under that request, the confirmed id becomes free at the sender, and no task's set of holders changes |
| ClusterRuns.AnswerFinal | src/kvstore/worker/p2p.py:220-242 | the answer to a request never changes in any later run, and its batch is never queued again |
| ClusterRuns.TakenOnce | src/kvstore/worker/p2p.py:220-242 | along any run, however often a request arrives, its batch is put into a queue at most once |
| ClusterLaws.AfterInv | src/kvstore/worker/p2p.py:103-251 | every move keeps: node invariants, transfers matching their requests, answers matching their requests, each sent task either still reserved or taken back or confirmed and never both, confirmations only of accepted requests |
| ClusterCopies.AfterConserved | src/kvstore/worker/p2p.py:135-180 | every move keeps the conservation law |
| ClusterCopies.HoldersDeliver | src/kvstore/worker/p2p.py:230-242 | a delivery that is taken makes the receiver a holder, which it was not, and the sender, if it still reserves the copy for this request, a holder no more; any other delivery changes no holder |
| ClusterCopies.DoubledDeliver | src/kvstore/worker/p2p.py:164-166 | a delivery doubles a transfer exactly if it is taken after its sender took the copy back |
| ClusterCopies.ConserveDeliver | src/kvstore/worker/p2p.py:230-242 | the conservation equation holds after a delivery if it held before |
| ClusterCopies.FirmLocal | src/kvstore/worker/p2p.py:135-171 | what each move adds to and removes from its own worker's firm copies |
| ClusterWitness.WitnessKept | src/kvstore/worker/p2p.py:135-171 | a firm copy with a given label at a worker that runs survives, there or at another such worker, every move of a running worker except the report of a copy with that label |
| ClusterTrace.TraceFrom | src/kvstore/worker/p2p.py:135-171 | a labelled copy that may still be reported, or a transfer that could still deliver one, comes only from an earlier one or from an admission with that label |
| ClusterTrace.WitnessFrom | src/kvstore/worker/p2p.py:135-171 | a labelled firm copy comes only from an earlier one, an admission, an intake, or a copy taken back that the receiver has too |
| NodeLaws.FirmIsAnswerable | src/kvstore/worker/ready_queue.py:28-32 | a worker's firm ids are its active ids less those handed over and those reported |
| NodeLaws.FirmReceive | src/kvstore/worker/p2p.py:230-242 | an intake adds exactly the batch's ids, none of which the worker was answerable for, or nothing |
| NodeLaws.FirmRelease | src/kvstore/worker/p2p.py:165-166 | taking a task back makes its copy firm again exactly if its receiver has taken it; otherwise it was firm all along |
| NodeLaws.FirmConfirm | src/kvstore/worker/p2p.py:170-171 | confirming a handed-over task removes no firm copy |
| NodeLaws.FirmReport | src/kvstore/worker/runtime.py:249-263 | sending a result removes exactly the firm copy of the task in processing |
| NodeLaws.PickInv | src/kvstore/worker/p2p.py:138-141 | after each reservation attempt the reserved map holds exactly the tasks picked so far |
| NodeLaws.ConfirmOneInv | src/kvstore/worker/p2p.py:170-171 | after each confirmation the reserved map holds exactly the tasks left to confirm |
| NodeLaws.ReleaseOneInv | src/kvstore/worker/p2p.py:165-166 | after each release the reserved map holds exactly the tasks left to release |
| NodeLaws.ReceiveInv | src/kvstore/worker/p2p.py:220-242 | an intake, accepted, refused, repeated or malformed, keeps the worker's invariant |
| P2P.P2PService.constructor | src/kvstore/worker/p2p.py:34-49 | own id left out of the peers, no answers given, no transfer under way |
| P2P.P2PService.Request | src/kvstore/worker/p2p.py:253-284 | a request costs one clock unit once connected, a reply is observed, and a reply under another request id counts as none |
| P2P.P2PService.CollectOffers | src/kvstore/worker/p2p.py:113-127 | the offers collected are exactly the positive rooms in answers to these requests by the peers asked, and the clock has not run back |
| P2P.First | src/kvstore/worker/p2p.py:133-134 | the chosen offer is one of the offers; no other has more room, and none with as much a smaller id |
| P2P.BestOfferUnique | src/kvstore/worker/p2p.py:133-134 | there is only one such offer |
| P2P.P2PService.BalanceOnce | src/kvstore/worker/p2p.py:103-180 | acts exactly if twice the size exceeds 15 and some peer answers with room; picks the peer with most room, then smallest id, and min(draw, room) tasks; succeeds exactly if the reply is this peer's answer to this transfer, accepts, and names exactly these ids; then the queue has lost exactly those tails, else each class X ++ C has become reverse(C) ++ X; and the whole call is a sequence of the sections that the cluster proofs interleave |
| P2P.P2PService.Attempt | src/kvstore/worker/p2p.py:136-180 | the same for the part after a peer is chosen, with the transfer counted once under its request id exactly on success |
| P2P.P2PService.ReserveBatch | src/kvstore/worker/p2p.py:137-141 | the reservation loop takes the candidates that are still there, in order, as a sequence of reservation sections |
| P2P.P2PService.ReleaseBatch | src/kvstore/worker/p2p.py:164-166 | the release loop returns every task and ends the transfer, as a sequence of release sections |
| P2P.P2PService.ConfirmBatch | src/kvstore/worker/p2p.py:170-171 | the confirmation loop confirms every task and ends the transfer, as a sequence of confirmation sections |
| P2P.P2PService.HandleConnection | src/kvstore/worker/p2p.py:182-251 | a well-formed new transfer from a known peer is one protocol intake stamped with the clock; an answered one gets the stored answer; a status request gets the free room; anything else is refused; in the last three cases queue and answers stay as they were; the service goes on exactly unless a new transfer has a record without id, key or value, at the first faulty record |
| P2P.P2PService.SendResponse | src/kvstore/worker/p2p.py:286-303 | a response costs one clock unit and is stamped afterwards |
| P2P.P2PService.HandleTransfer | src/kvstore/worker/p2p.py:220-242 | a known request gets its answer again and changes nothing; a malformed one changes nothing; any other is taken in whole or refused, and its answer kept |
| P2P.P2PService.Take | src/kvstore/worker/p2p.py:229-241 | the batch joins the normal class in order, stamped, and the answer names its ids, exactly if they are distinct, unknown here and all fit; else the queue is as it was; either way this is one protocol intake |
| P2P.P2PService.StampAll | src/kvstore/worker/p2p.py:230-231 | every received task carries the receiver's clock |
| P2P.BatchRoundTrip | src/kvstore/worker/p2p.py:149-154 | a batch of valid tasks is parsed by the receiver as it was sent |
| P2P.ParseLaw | src/kvstore/worker/p2p.py:229 | a batch parses exactly if each of its records does, in order; else the first fault is the one reported |
| P2P.PerformApart | src/kvstore/worker/p2p.py:103-180 | a transfer neither reads nor writes what the process loop holds |
| P2P.ReleaseAllKeeps | src/kvstore/worker/p2p.py:164-166 | releasing any batch keeps the joint invariant and the time stamps in the past |
| QueueLaws.RunLaw | src/kvstore/worker/ready_queue.py:38-146 | the joint invariant (four pairwise disjoint duplicate-free groups making up the active ids, within capacity) holds after any run of the seven operations in which the process loop takes one task at a time |
| QueueLaws.EnqueueInv | src/kvstore/worker/ready_queue.py:53-62 | a single enqueue, accepted or refused, keeps the joint invariant |
| QueueLaws.EnqueueTasks | src/kvstore/worker/ready_queue.py:59-60 | an accepted task was not waiting before and is the only one added |
| QueueLaws.EnqueueLaw | src/kvstore/worker/ready_queue.py:53-62 | a known id is a duplicate, else a queue with no place left is full; an admitted task joins the end of the priority class exactly if it was sent with priority, else the end of the normal class |
| QueueLaws.TakenInTurn | src/kvstore/worker/ready_queue.py:59-91 | along any run without transfers, an admitted priority task is taken after exactly the priority tasks that were waiting and before every normal one, whatever arrives meanwhile; a normal task after exactly the tasks that were waiting, if no priority task arrives |
| QueueLaws.PriorityNext | src/kvstore/worker/ready_queue.py:79-91 | along any such run, the waiting priority tasks are the next ones taken, in order |
| QueueLaws.EnqueueManyInv | src/kvstore/worker/ready_queue.py:64-77 | a batch is accepted exactly if its ids are distinct, none is active, and all fit; refused, nothing changes; either way the joint invariant stays |
| QueueLaws.DequeueInv | src/kvstore/worker/ready_queue.py:79-91 | taking a task keeps the joint invariant exactly if nothing was taken or the previous task was marked done |
| QueueLaws.DequeueTasks | src/kvstore/worker/ready_queue.py:85-91 | a task is taken exactly if one waits, it was waiting, and it is the only one to leave |
| QueueLaws.ServedInOrder | src/kvstore/worker/ready_queue.py:85-90 | successive takes deliver the priority class, then the normal class, each in order of arrival |
| QueueLaws.MarkDoneInv | src/kvstore/worker/ready_queue.py:93-97 | marking done keeps the joint invariant |
| QueueLaws.ReserveInv | src/kvstore/worker/ready_queue.py:119-128 | a reservation succeeds exactly for waiting ids, remembers task and class, keeps the size and the joint invariant |
| QueueLaws.ReserveTasks | src/kvstore/worker/ready_queue.py:119-128 | the reserved task was waiting and is the only one to leave |
| QueueLaws.ConfirmInv | src/kvstore/worker/ready_queue.py:130-135 | a confirmation keeps the joint invariant |
| QueueLaws.ReleaseInv | src/kvstore/worker/ready_queue.py:137-146 | a release keeps size and joint invariant: it can never overflow |
| QueueLaws.ReleaseTasks | src/kvstore/worker/ready_queue.py:140-144 | the released task was not waiting and is the only one to come back |
| QueueLaws.ReservationSurvives | src/kvstore/worker/ready_queue.py:119-146 | in any run without its own confirmation or release a reservation stays, and its later release puts the task at the front of its own class |
| QueueBalance.FailedBalance | src/kvstore/worker/p2p.py:136-168 | reserving the candidates and releasing them all turns each class X ++ C into reverse(C) ++ X and changes nothing else |
| QueueBalance.CompletedBalance | src/kvstore/worker/p2p.py:136-171 | reserving the candidates and confirming them all removes exactly C from each class and frees exactly its ids |
| QueueBalance.ReserveCandidates | src/kvstore/worker/p2p.py:136-141 | undisturbed, every candidate is reserved out of its own class |
| QueueBalance.SplitQueue | src/kvstore/worker/ready_queue.py:112-117 | the candidates are a tail of the normal class topped up from a tail of the priority class, at most `count`, the latter only if no normal task stays |
| QueueBalance.ReverseKeeps | src/kvstore/worker/ready_queue.py:144 | the reversed tail holds the same tasks, last first |
| QueueSpec.Find | src/kvstore/worker/ready_queue.py:122-124 | the position found is the first that holds the id |
| WorkerQueue.RemoveFound | src/kvstore/worker/ready_queue.py:125 | removing the first equal task removes the one that was found |
| WorkerQueue.ReadyQueue.constructor | src/kvstore/worker/ready_queue.py:20-32 | an empty queue of that capacity, with the joint invariant |
| WorkerQueue.ReadyQueue.Create | src/kvstore/worker/ready_queue.py:20-22 | refused exactly for a capacity that is not positive |
| WorkerQueue.ReadyQueue.ResultLocked | src/kvstore/worker/ready_queue.py:44-51 | size, capacity and warning (over 70%, reserved included) of the current state |
| WorkerQueue.ReadyQueue.TryEnqueue | src/kvstore/worker/ready_queue.py:53-62 | duplicate, full or admitted to the end of its own class, with size and warning of the new state |
| WorkerQueue.ReadyQueue.TryEnqueueMany | src/kvstore/worker/ready_queue.py:64-77 | duplicate exactly if two tasks share an id or one is known, full exactly if they do not all fit, else all appended to the normal class |
| WorkerQueue.ReadyQueue.DequeueForProcessing | src/kvstore/worker/ready_queue.py:79-91 | the head of the priority class, else of the normal class, is taken and noted as in processing |
| WorkerQueue.ReadyQueue.MarkProcessingDone | src/kvstore/worker/ready_queue.py:93-98 | the id in processing, and no other, is free again |
| WorkerQueue.ReadyQueue.SnapshotStatus | src/kvstore/worker/ready_queue.py:100-107 | under the joint invariant a valid status is built exactly if the id is non-empty and the capacity is the prescribed one, and its room is never negative |
| WorkerQueue.ReadyQueue.PeekTransferCandidates | src/kvstore/worker/ready_queue.py:109-117 | refused exactly for a count that is not positive, else the end of the normal class topped up from the end of the priority class |
| WorkerQueue.ReadyQueue.ReserveForTransfer | src/kvstore/worker/ready_queue.py:119-128 | the two search loops take out the first task of that id, normal class first |
| WorkerQueue.ReadyQueue.ConfirmRemoved | src/kvstore/worker/ready_queue.py:130-135 | a reserved id is reserved and known no more, and nothing else changes |
| WorkerQueue.ReadyQueue.ReleaseReservation | src/kvstore/worker/ready_queue.py:137-146 | a reserved task is back at the front of its own class, and nothing else changes |
| Worker.WorkerRuntime.constructor | src/kvstore/worker/runtime.py:48-72 | a worker over an empty queue, sharing queue, clock and statistics with its P2P service |
| Worker.WorkerRuntime.HandleTask | src/kvstore/worker/runtime.py:179-216 | a malformed TASK changes nothing; a known one leaves the queue alone and a full queue refuses it, else it joins the end of its class; one message goes out, an overflow under the task's label or else a status with the size the queue has then; a balance check is requested exactly if the task was admitted, the queue warns and twice its size exceeds 15 |
| Worker.WorkerRuntime.ProcessOnce | src/kvstore/worker/runtime.py:218-274 | with nothing waiting nothing changes; otherwise one task is taken, reported and finished; a status with the size after the take, the result, and a status with the size after marking done go out in that order, with the counters of their moment; the reported wait is the unclipped time since the stamp and never negative, and the clock moves by the processing time plus three sends |
| Worker.WorkerRuntime.TakeTask | src/kvstore/worker/runtime.py:220-236 | the first half of that turn: the head of the priority class, else of the normal one, its wait, and one status with the size after the take and the counters |
| Worker.WorkerRuntime.Complete | src/kvstore/worker/runtime.py:246-270 | the second half of that turn |
| Worker.WorkerRuntime.SendResult | src/kvstore/worker/runtime.py:246-268 | the result carries the task's id, key and value and its own label, or the worker's id if it has none, and is counted once under an event id per task, or per task and attempt |
| Worker.DecimalApart | src/kvstore/worker/runtime.py:256-266 | failures of different attempts of a task have different event ids |
| Worker.WorkerRuntime.SendQueueStatus | src/kvstore/worker/runtime.py:332-344 | one QUEUE_STATUS with the current size, capacity and processing id and the running P2P counts |
| Worker.WorkerRuntime.Send | src/kvstore/worker/runtime.py:276-287 | a message costs one clock unit and is stamped afterwards |
| Worker.SendsAsModelled | src/kvstore/worker/runtime.py:289-320 | for a task with a proper label, results and overflow answers are the very messages the system runs put on the connection, and the master reads them as the success or failure of that task under that label |
| Timing.WaitNeverClipped | src/kvstore/worker/runtime.py:223 | in every run of a worker, queue operations and clock ticks in any order, the next task's wait is now minus its stamp: the max with 0 never bites |
| Timing.StepTimely | src/kvstore/worker/runtime.py:188 | every operation and every tick keeps all stamps in the past |
| MasterScheduler.MasterRuntime.constructor | src/kvstore/master/runtime.py:59-90 | nothing prepared, the registered workers connected and empty |
| MasterScheduler.MasterRuntime.PrepareTasks | src/kvstore/master/runtime.py:140-146 | each generated task is in the table under its id and pending, none is lost to an equal id, and the deque holds the ids in the order of generation |
| MasterScheduler.MasterRuntime.Prepared | src/kvstore/master/runtime.py:140-146 | after preparation the master is valid and is a start of the runs below |
| MasterScheduler.MasterRuntime.ClearAssignmentLocked | src/kvstore/master/runtime.py:360-362 | the loop leaves no worker holding the task and changes nothing else |
| MasterScheduler.MasterRuntime.QueueRetryLocked | src/kvstore/master/runtime.py:364-369 | the heap with its growing counter stays a FIFO queue; a task already in retry is not queued again, any other goes to the end |
| MasterScheduler.MasterRuntime.HeapPop | src/kvstore/master/runtime.py:435 | the heap's minimum is the head of that queue |
| MasterScheduler.MasterRuntime.NextRetryLocked | src/kvstore/master/runtime.py:434-437 | the first entry that is not stale is returned, and everything up to it is dropped |
| MasterScheduler.MasterRuntime.NextNormalLocked | src/kvstore/master/runtime.py:438-441 | the same for the deque of normal tasks |
| MasterScheduler.MasterRuntime.NothingStale | src/kvstore/master/runtime.py:434-441 | in a valid state no entry of either queue is stale |
| MasterScheduler.MasterRuntime.NextTaskLocked | src/kvstore/master/runtime.py:433-442 | so the head of the retry queue is returned if there is one, else the head of the deque, and nothing is skipped |
| MasterScheduler.MasterRuntime.ChooseWorkerLocked | src/kvstore/master/runtime.py:444-455 | nobody is chosen exactly if every connected worker with room was the last to fail the task; the chosen worker is none of these, no other candidate has more free places, and none with as many has a smaller id |
| MasterScheduler.MasterRuntime.PutTaskBackLocked | src/kvstore/master/runtime.py:457-464 | a retry task goes to the end, a normal one back to the front, in its former state |
| MasterScheduler.MasterRuntime.HandleSuccess | src/kvstore/master/runtime.py:283-304 | validity kept; the worker named in the message, or the sender if none is named, decides: if the task is assigned and that worker holds it, its value is stored under its key, it is done and held by nobody; else nothing changes; either way this is the success event of the run theorems |
| MasterScheduler.MasterRuntime.HandleFailure | src/kvstore/master/runtime.py:318-341 | validity kept; if the task is assigned and the named worker, or else the sender, holds it, it is held by nobody, waits for a retry under a new number in the heap, has the sender as last failing worker and one more attempt unless it was an overflow; else nothing changes; either way this is the failure event of the run theorems |
| MasterScheduler.MasterRuntime.UpdateStatus | src/kvstore/master/runtime.py:260-266 | validity kept; a malformed status, or one that names another worker, is refused without effect; any other one puts its size and capacity on the worker's record and changes nothing else |
| MasterScheduler.MasterRuntime.DisconnectWorker | src/kvstore/master/runtime.py:371-382 | validity kept; the worker is disconnected and holds nothing, exactly the tasks it held have it as last failing worker and are queued for a retry, each once, in some order; a second call does nothing |
| MasterScheduler.MasterRuntime.RequeueAll | src/kvstore/master/runtime.py:376-380 | the loop over the held tasks, in any order, marks and queues each exactly once |
| MasterScheduler.MasterRuntime.NextAssignmentLocked | src/kvstore/master/runtime.py:417-431 | validity kept; the head of the retry queue, else of the deque, goes with its priority to the candidate with most free places, then smallest id, whose size on record grows by one; it fails exactly if every connected worker with room was the last to fail that task, and then only the retry queue is rotated |
| MasterScheduler.MasterRuntime.DistributeOnce | src/kvstore/master/runtime.py:385-397 | distribution returns exactly when every task is done, and then deque, heap and all assigned sets are empty; it gives up exactly when nobody is connected; else it sends the assignment or waits |
| MasterLaws.SucceedInv | src/kvstore/master/runtime.py:283-304 | a success, accepted or stale, keeps the partition of the tasks over deque, heap, one connected worker and store, and the store exactly the done tasks |
| MasterLaws.FailInv | src/kvstore/master/runtime.py:318-341 | so does a failure |
| MasterLaws.ReportInv | src/kvstore/master/runtime.py:260-266 | so does a queue report, and the recorded size stays within 0..capacity |
| MasterLaws.DisconnectInv | src/kvstore/master/runtime.py:371-382 | so does a disconnect, after which the worker owns nothing |
| MasterLaws.NextInv | src/kvstore/master/runtime.py:417-431 | so does a distribution step, the recorded size included |
| MasterLaws.NextLaw | src/kvstore/master/runtime.py:417-464 | a step either leaves every task and worker as it was, rotating at most the retry queue, or assigns the head of the retry queue, else of the deque, to its best worker |
| MasterLaws.ChooseLaw | src/kvstore/master/runtime.py:444-455 | a worker is chosen exactly if one is connected, has room and was not the last to fail the task; the chosen one has the most free places of these, and of those with as many the smallest id |
| MasterLaws.BestUnique | src/kvstore/master/runtime.py:454 | the best worker is unique |
| Basics.LexMeans | src/kvstore/master/runtime.py:454 | in the order of ids one string comes first exactly if it begins the other or is smaller at the first difference |
| MasterLaws.InitialInv | src/kvstore/master/runtime.py:140-146 | the prepared master has the invariant |
| MasterRuns.EveryRun | src/kvstore/master/runtime.py:283-431 | every run from the start keeps the invariant; per task and in total, assignments issued = done + assigned + failed + overflowed + requeued, attempt = failures that were not overflows; and at most 2N + (N + 1)W + 2F steps change anything, F the accepted failures |
| MasterRuns.StepDrops | src/kvstore/master/runtime.py:283-383 | every effective step lowers the potential (waiting 2, assigned 1, connected worker N + 1), except that an accepted failure may give back at most one |
| MasterRuns.AccountStep | src/kvstore/master/runtime.py:336-340 | every step keeps the per-task account |
| MasterRuns.BalanceStep | src/kvstore/master/runtime.py:371-381 | every step keeps the total account |
| MasterRuns.StoreGrows | src/kvstore/master/runtime.py:299-302 | no step, whatever late, repeated or relabelled result it reads, changes or drops a stored entry |
| MasterRuns.TasksStay | src/kvstore/master/runtime.py:283-383 | no step adds or drops a task or touches a key or a value |
| MasterRuns.Completion | src/kvstore/master/runtime.py:385-389 | the store is full exactly if every task is done, and then nothing is queued, waiting or assigned |
| MasterCompletion.ExactStore | src/kvstore/master/runtime.py:105-119 | in every run over every draw of keys and values, each stored entry reads back as a drawn key with the value drawn for it; the store holds `count` entries exactly if it has one for every draw, and then nothing is left over |
| MasterProgress.Rotation | src/kvstore/master/runtime.py:457-461 | calls that find their retry task blocked do nothing but rotate the retry queue |
| MasterProgress.FirstUnblocked | src/kvstore/master/runtime.py:417-464 | the first retry task with an eligible worker is assigned by the call that reaches it, to its best worker |
| MasterProgress.FullRound | src/kvstore/master/runtime.py:457-461 | if all are blocked, a full round of calls restores the original order |
| MasterProgress.TwoWorkersSuffice | src/kvstore/master/runtime.py:444-455 | with two connected workers having room, a call assigns exactly if a task waits |
| MasterHistory.EveryAssignment | src/kvstore/master/runtime.py:444-455 | along every run, a task whose latest failure, overflow or disconnect happened at a worker is never given to that worker before another such end elsewhere; it goes to the best of the other connected workers with room, with priority exactly if a retry task waits; recorded sizes stay within capacity throughout |
| MasterHistory.RunFair | src/kvstore/master/runtime.py:336-381 | the same from any point of a run, given what happened before it |
| MasterHistory.RecordedSize | src/kvstore/master/runtime.py:260-266 | at any point after a well-formed queue status of a worker and before its next one, the size on record is the reported size plus the assignments to that worker since |
| MasterProgress.SoleWorkerServes | src/kvstore/master/runtime.py:444-452 | with one connected worker that has room, a round over the retry queue assigns something exactly if some retry task last failed elsewhere |
| MasterProgress.StalledForever | src/kvstore/master/runtime.py:417-424 | when every retry task last failed at the only connected worker and nothing is out, no run stores or starts anything, normal tasks included, until that worker is lost |
| MasterProgress.OneFailureStalls | src/kvstore/master/runtime.py:318-341 | that state is reachable: one worker and one failure of its first task |
| ResultCount.EverySuccessCounted | src/kvstore/master/runtime.py:287-309 | in every run, however handlers interleave between storing and recording, successes counted over all workers + results stored but not yet counted = size of the store |
| ResultCount.OwnSuccessesCounted | src/kvstore/master/runtime.py:305-309 | and for each worker, what was counted for it and what is still to be counted for it grow by exactly its own stored results |
| ResultCount.StartCounted | src/kvstore/master/runtime.py:140-146 | the prepared master with empty statistics is a start of those runs |
| Generation.GeneratedLaw | src/kvstore/master/runtime.py:29-41 | a count outside 1..65536 is refused; every other draw yields `count` valid, fresh tasks with pairwise different ids and keys, where task i has the value of draw i, a four-digit key that reads back as the key of draw i, and a number of at least four digits that reads back as i + 1 |
| Generation.NumeralRoundTrip | src/kvstore/master/runtime.py:36-37 | zero-padded formatting is injective: the number can be read back at any width and base |
| Generation.KeyNameLaw | src/kvstore/master/runtime.py:37 | a sampled key is formatted as exactly four lower-case hexadecimal digits that read back as the key |
| Models.MakeTaskLaw | src/kvstore/common/models.py:35-49 | construction succeeds exactly for an id, four hexadecimal digits in either case, a value from 1 to 100 and no negative count or time; it changes nothing but the case of the key, and leaves exactly the valid tasks unchanged |
| Models.MakeStatusLaw | src/kvstore/common/models.py:125-145 | a status is built exactly for a named worker, the capacity 10 and a size within it |
| Models.TaskRoundTrip | src/kvstore/common/models.py:51-71 | a task survives to_dict and from_dict exactly if it is valid, and in between its seven fields have the names of the protocol |
| Models.TaskReadTwice | src/kvstore/common/models.py:54-71 | whatever dictionary was read, sending the result on and reading it again changes nothing |
| Models.Defaults | src/kvstore/common/models.py:54-71 | absent fields read as no attempt, no stamp, no worker and, in a status, the capacity 10 and no task |
| Models.ReadFaults | src/kvstore/common/models.py:54-71 | a missing id, key or value is one fault; a value, attempt or stamp that is no number is another, noticed after it |
| Models.StatusRoundTrip | src/kvstore/common/models.py:131-161 | the same for worker statuses, with their four field names, and then their room lies in 0..10 |
| Clock.ClosedForm | src/kvstore/common/clock.py:17-30 | after any advances and observations the clock is the maximum of its start plus all advances and, for each observation, the observed value plus later advances; refused ones count for nothing |
| Clock.Monotone | src/kvstore/common/clock.py:17-30 | no sequence of advances and observations moves the clock back |
| Clock.ChainCosts | src/kvstore/worker/runtime.py:276-287 | along a causal chain of messages, whatever the receivers' clocks showed, k sends raise the clock by at least k |
| Clock.LogicalClock.Create | src/kvstore/common/clock.py:7-11 | refused exactly for a negative start |
| Clock.LogicalClock.Advance | src/kvstore/common/clock.py:17-22 | refused exactly for a negative duration, without effect; else the duration is added |
| Clock.LogicalClock.Observe | src/kvstore/common/clock.py:24-30 | refused exactly for a negative remote value, without effect; else the larger of the two values |
| Clock.LogicalClock.Reset | src/kvstore/common/clock.py:32-34 | back to zero |
| Framing.RoundTrip | src/kvstore/common/protocol.py:16-57 | any payloads of 1..1048576 bytes, framed and concatenated, are parsed back exactly, in order, with nothing left over |
| Framing.ParsePrefix | src/kvstore/common/protocol.py:31-40 | a stream cut anywhere yields exactly the payloads that lie completely before the cut, then the end of the stream |
| Framing.TruncatedFrame | src/kvstore/common/protocol.py:31-40 | a stream that ends inside a frame never yields a message |
| Framing.HeaderRoundTrip | src/kvstore/common/protocol.py:28 | four bytes, the most significant first, carry any length below 2^32 |
| Framing.EncodeLaw | src/kvstore/common/protocol.py:16-28 | a payload is sent exactly if it has 1..1048576 bytes, behind four bytes with its length, the most significant first |
| Framing.BadHeader | src/kvstore/common/protocol.py:43-48 | a header that announces no byte, or more than 1048576, is an error whatever follows, and no other header is |
| Framing.RecvExact | src/kvstore/common/protocol.py:31-40 | however the stream is cut into chunks, exactly `size` bytes are consumed, or the end of the stream is reported |
| Framing.ReceiveMessage | src/kvstore/common/protocol.py:43-57 | one frame is consumed and delivered as the parser says, whatever the chunks |
| Framing.ReceiveAll | src/kvstore/common/protocol.py:43-57 | reading until failure delivers all payloads of the stream in order |
| Framing.Transmit | src/kvstore/common/protocol.py:59-60 | what is sent is what is received |
| Statistics.TotalsAlwaysMatch | src/kvstore/common/stats.py:116-174 | in every run the two P2P totals are the sums of the workers' sent counters |
| Statistics.CountedOnce | src/kvstore/common/stats.py:68-74 | a record whose event id occurred before, on any kind of record and with anything in between, changes nothing |
| Statistics.OrderIndependent | src/kvstore/common/stats.py:150-174 | a run of snapshots ends the same in whatever order they arrive |
| Statistics.RepeatAbsorbed | src/kvstore/common/stats.py:164-168 | and however often one of them arrives |
| Statistics.StatsCollector.constructor | src/kvstore/common/stats.py:59-66 | empty, with matching totals |
| Statistics.StatsCollector.IsDuplicateLocked | src/kvstore/common/stats.py:68-74 | reports whether the id was seen, and remembers it |
| Statistics.StatsCollector.GetOrCreateWorkerLocked | src/kvstore/common/stats.py:76-79 | the worker's counters, created blank if missing, all others unchanged |
| Statistics.StatsCollector.RecordTaskSuccess | src/kvstore/common/stats.py:81-94 | a new event counts one processed and successful task and its wait for that worker; a repeated one changes nothing |
| Statistics.StatsCollector.RecordTaskFail | src/kvstore/common/stats.py:96-108 | a new event counts one processed and failed task and its wait for that worker; a repeated one changes nothing |
| Statistics.StatsCollector.RecordQueueOverflow | src/kvstore/common/stats.py:110-114 | one more overflow for that worker, nothing else |
| Statistics.StatsCollector.RecordP2PTransfer | src/kvstore/common/stats.py:116-140 | a new event adds one transfer and its tasks to what the sender has sent, what the receiver has received and both totals; a repeated or empty one changes nothing |
| Statistics.StatsCollector.RecordReallocation | src/kvstore/common/stats.py:142-148 | a new event adds one to the total, and nothing else |
| Statistics.StatsCollector.UpdateP2PSnapshot | src/kvstore/common/stats.py:150-174 | negative counts are refused; else the maxima are kept and both totals recomputed as sums |
| Statistics.StatsCollector.GetWorkerStats | src/kvstore/common/stats.py:176-192 | a copy of the worker's counters, created blank if missing |

## Left out

- Sockets, threads, timeouts, condition variables, `stop()` and process shutdown: the model has the guarded steps and channels only.
- JSON text and UTF-8: frames carry opaque payloads, and records go through dictionaries of decoded values; Python's `str`, `int` and `float` on those values are parameters.
- A connection that breaks while its worker runs on: the worker ends as soon as it notices (src/kvstore/worker/runtime.py:90-97, 159-161), and the model lets the master stop reading only after the end of the worker. What the worker could still pass to its peers in between is not covered.
- Registration and the acceptance of workers: runs start with the registered workers connected and empty.
- Log lines, reports, averages and their rounding, the launcher, the registration stub, the smoke client, configuration and command lines: I/O or one-line checks.
- The 80/20 split, uniform processing times and other probabilities: the outcome and the duration are arbitrary.
- The 70% warning compares with a float product in the source; the model compares ten times the size with seven times the capacity, which agrees for the prescribed capacity of 10.
- Liveness under fair scheduling and any claim that transfers reduce load: the source does not guarantee it.
- That retry priority survives a transfer: it does not, received tasks join the normal class.
- Forgetting.TaskForgotten: the QUEUE_STATUS messages sent around each processed task are left out of the twelve steps; they change recorded sizes only, and both workers keep room without them.
- LateAnswer.LateAnswerForgets: the same holds for its twelve steps. A transfer may start at any queue length in ClusterSpec, because the source checks the 15 seconds before it asks the peers, and the queue may shrink by processing until the candidates are picked; the source needs eight tasks to have been queued at some time before, which are left out of the run.
- WorkerEnds.EndingHoldsTask: the same holds for its ten steps.
- MasterScheduler.MasterRuntime.constructor: the source starts without workers and adds each one when it registers; here they are registered at construction.
- MasterScheduler.MasterRuntime.HandleSuccess: the record a handler makes after leaving the lock is modelled in ResultCount, not in the class; the same holds for HandleFailure and NextAssignmentLocked.
- MasterScheduler.MasterRuntime.NextAssignmentLocked: task and worker records are values in maps, so two references to one record are not modelled; the TASK message is built from the record under the lock, while the source builds it just after, when only attempt and last failing worker could have changed.
- P2P.P2PService.BalanceOnce: the class method runs with nothing else running; interleavings with the other threads are covered at the level of sections in ClusterSpec. The notification of the master about a changed queue after a transfer is a separate status step.
- P2P.P2PService.Take: all tasks of a batch get the same stamp, because nothing else runs in between; the source reads the clock once per task.
- Worker.WorkerRuntime.SendQueueStatus: the connection to the master is up; a send that fails ends the worker, which the system runs cover by workers that end at any time.
- SystemSpec.AssigneeOf: an empty label counts as a label, while the source falls back to the worker's own id; worker ids are never empty, so no such label arises.
