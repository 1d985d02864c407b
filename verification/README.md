# LPEL: its synchronisation protocols, verified

LPEL runs cooperative tasks on worker threads; tasks talk over single-producer/single-consumer
streams. This project models the protocols that hold it together and the linked structures beneath
them, and proves what they promise for any number of workers, tasks, streams and steps.

| file | what it models |
|---|---|
| Ring.dfy, StreamNet.dfy, StreamGuarantees.dfy, StreamHistory.dfy | the ring buffer and the stream protocol: write, read and poll by any number of tasks over any number of streams, in one interleaved machine; what reads return, told from the calls |
| StreamSet.dfy, PollRotation.dfy | descriptor sets, their iterator, and the rotation of a set by a poll |
| Spmd.dfy, SpmdGuarantees.dfy | the SPMD request queue and its two barriers over one semaphore per worker |
| Master.dfy, MasterGuarantees.dfy, MasterLaws.dfy, MasterOrder.dfy, MasterHistory.dfy, MasterObject.dfy | the hierarchical scheduler: master, workers, tasks; what each message does; the order of what is handed out; what is sent is valid; the master's handlers updating its context in place |
| TaskQueue.dfy | the array heap of ready tasks |
| Decen.dfy, DecenGuarantees.dfy, DecenLaws.dfy, DecenHistory.dfy, DecenRuns.dfy, DecenStack.dfy, DecenStackGuarantees.dfy | the decentralised workers: life cycle, migration and accounting; where each choice takes a task; assignments to workers that have ended; tasks begun while their stack is in use |
| Mailbox.dfy, MailboxWait.dfy | mailboxes, and receivers that wait on their condition variable |
| Mpsc.dfy | the lock-free queue with a stub node |
| FlagTree.dfy, FlagTreeRun.dfy | the flag tree: gather and grow, and markers that run beside a gatherer |

A protocol is a state machine: a datatype holds the shared variables, the program counters and some
history, `Enabled` and `Apply` give its steps, and the results hold in every reachable state or for
every run. Where a result speaks of history, a fold over the action list ties that history to the calls
that were made (StreamHistory, SpmdGuarantees.Requests, MasterHistory, DecenHistory, Mailbox.Sends,
Mpsc.Enqueued, FlagTreeRun.MarkedSince). MasterLaws and DecenLaws state what single steps do, field by
field and without the functions that compute them. A structure that one thread changes at a time is a class whose methods are proved equal to
functions, about which the properties are proved.

## Assumptions

- Memory is sequentially consistent. One step is one atomic operation, one section under a lock, one
  semaphore operation, one mailbox operation, one change of a task's state by its worker, or one whole
  message handler.
- LpelSpmdRequest reserves its slot and fills it field by field (spmdext.c:226-231). Spmd.dfy takes both
  as one step.
- Priorities are integers, except where TaskQueue.dfy speaks of doubles; there the difference of two
  priorities is exact and only its conversion to int is modelled.
- USE_HEAP_QUEUE and _USE_NEG_DEMAND_LIMIT_ are defined, and no rts_prio_cmp is configured.
- Fill levels, wait proportions, random targets and priority functions are arbitrary inputs of the steps.
- A task that decides to block is woken exactly once for it, at any time after the decision.
- Every stream has one producer and one consumer, and a poll is over a non-empty set of distinct streams
  of the polling task.

## Findings

Properties that the code or its comments suggest and that do not hold, each with an input and the exact
condition.

- **A try-write can block** (decen_stream.c:181-189). `StreamGuarantees.TryWriteBlocksIff`: after its test for
  space it blocks exactly if all slots but one are filled and the reader has popped an item but not yet
  raised e_sem. `TryWriteCanBlock`: one item through a stream of size 1.
- **comparePrior on doubles** (hrc_taskqueue.c:30-42). `TaskQueue.CompareRealIsExactIff`: the sign is
  right exactly for equal priorities and for those at least 1 and less than the range of int apart.
  `CompareRealIsNotTransitive`: 0, 0.6 and 1.2. `NewTaskComparesIff`: the initial priority DBL_MAX
  (hrc_task.c:427) compares with a defined result only to a priority within the range of int of it.
- **The heap after a task is made valid again** (hrc_taskqueue.c:169-178). `UpdatePriorityOrdersIff`:
  the update leaves the order intact unless the task was invalid, is valid now, its priority has not
  grown, and its new key exceeds its parent's. `RevivedCanBreakOrder`: the heap [0, 1].
- **Validity set without an update** (hrc_worker_op.c:184-190 with update_prio 0). `SetValidOrdersIff`:
  the order stays exactly if a task made invalid has no valid child and a task made valid has a valid
  parent of at least its priority. `SetValidCanBreakOrder`: the heap [0, 1]; an invalid task then heads
  a queue that holds a valid one.
- **The master stops between a wakeup and a return** (hrc_worker_op.c:346).
  `MasterGuarantees.WakeupReturnConfluence`: with both messages in its mailbox the order does not matter, except
  that with terminate set the loop ends between them exactly if the ready queue is empty after the
  first; `EmptiedIff` says when that is so after the return.
- **A task sent to a worker that has left its loop** (decen_worker.c:209-212, 308-318, 621-627).
  `DecenRuns.StrandedIff`: exactly if the start of a task, the worker loop with a migrated task, or
  LpelWorkerMakeTaskReady sends it to a worker that has already ended. `StrandedForever`: nothing frees it.
  `StrandedAssign`: a run. It cannot happen if terminate is sent only when no started task lives and none
  is started later (`OrderlyNeverStrands`), nor, without migration, if none is started after the first
  terminate (`NoMigrationNeverStrands`).
- **A task begun while its stack is in use** (decen_worker.c:247-275, 308-318). The dispatcher runs on the
  stack of the task that called it. `DecenStackGuarantees.HomeIff`: its own task leaves it exactly if that task is
  woken there under LPEL_MIG_WAIT_PROP with a target above 0 that is not its worker. `CollisionIff`: then
  some continuation begins the task on another worker while the dispatcher is still on its stack, exactly
  if the target has not ended. `SharedStack`: a run of two workers. `NoSharedStack` and
  `NoSharedStackByMechanism`: without such a step, so in every run under the other mechanisms, it never happens.
- **Two receivers on a mailbox** (mailbox.c:126-131, 150-152). `MailboxWait.MissedIff`: a receiver sleeps
  over a message, with nobody woken for it, exactly if the only woken receiver takes one of several
  messages while another sleeps. `TwoReceiversCanMiss`: a run. With one receiver it never happens
  (`OneReceiverMissesNothing`); the code gives every mailbox one receiver.
- **MpscTqDequeue can return NULL on a non-empty queue** (mpsctq.c:62-70). `Mpsc.LoneCall`: alone, exactly
  with one task behind the stub; `TwoCallsSuffice`: the next call then returns it.

## Model

| member | source | states |
|---|---|---|
| Ring.AdvanceIsModular | src/sched/decentralised/decen_buffer.c:73-81 | the unsigned step of a ring index is (p+1) mod size for every size, although 1-size wraps |
| Ring.IsSpaceIffNotFull | src/sched/decentralised/decen_buffer.c:87-90 | the NULL test at the write index is exactly "not full", for the queue the ring stores |
| Ring.TopIsOldest | src/sched/decentralised/decen_buffer.c:57-60 | the read index holds the oldest item, or NULL exactly if the ring is empty |
| Ring.PutAppends | src/sched/decentralised/decen_buffer.c:109-125 | a put on a ring that is not full appends to the queue it stores |
| Ring.PopRemovesOldest | src/sched/decentralised/decen_buffer.c:73-81 | a pop removes the oldest item and nothing else |
| Ring.RingBuffer.constructor | src/sched/decentralised/decen_buffer.c:28-39 | a new ring stores the empty queue |
| Ring.RingBuffer.PopItem | src/sched/decentralised/decen_buffer.c:73-81 | the pop in place is the pop on values, with 32-bit index arithmetic |
| Ring.RingBuffer.PutItem | src/sched/decentralised/decen_buffer.c:109-125 | the put in place is the put on values |
| StreamGuarantees.StreamSafety | src/sched/decentralised/decen_stream.c:84-259 | in every reachable state of any net, for every stream: the items popped are a prefix of the items put, the ring stores the rest, n_sem and e_sem lie between -1 and the size, and the asserts on space and on a non-NULL item hold |
| StreamGuarantees.ReadReturnsOldest | src/sched/decentralised/decen_stream.c:200-259 | a read pops the oldest item not popped before it |
| StreamHistory.PutsWhatWasWritten | src/sched/decentralised/decen_stream.c:84-131 | in every run: the arguments of the calls that write to a stream, in the order of the calls, are the items put into it, then the one that a writer inside its call has still to put |
| StreamHistory.ReturnsWhatWasPopped | src/sched/decentralised/decen_stream.c:200-259 | in every run: the items popped are the results of the reads that have returned, then the one that a reader inside its call has taken |
| StreamHistory.ReadsWhatWasWritten | src/sched/decentralised/decen_stream.c:84-259 | in every run, over all interleavings: the k-th read of a stream that returns gives the argument of the k-th write |
| StreamGuarantees.BlocksIff | src/sched/decentralised/decen_stream.c:100-226 | a write suspends its caller exactly if every slot is filled, counting one emptied but not yet announced; a read exactly if no item is left but one put and not yet announced |
| StreamGuarantees.PutTakesToken | src/sched/decentralised/decen_stream.c:114-128 | a put leaves is_poll clear and takes the consumer's poll token exactly if is_poll was set; the writer then owes a wakeup exactly if it got a token that was there |
| StreamGuarantees.EveryOperationEnds | src/sched/decentralised/decen_stream.c:84-520 | a bound on the steps left of a write, a read or a poll goes down with each of its own steps and is not raised by any other task's |
| StreamGuarantees.ReaderWakeup | src/sched/decentralised/decen_stream.c:133-137 | a blocked reader has a wakeup in flight, or its producer is about to send one, or n_sem is -1 and no item it could take has been announced; exactly one of the three |
| StreamGuarantees.WriterWakeup | src/sched/decentralised/decen_stream.c:237-241 | the same for a blocked writer, e_sem and free slots |
| StreamGuarantees.NotBothAsleep | src/sched/decentralised/decen_stream.c:84-259 | the two ends of a stream never sleep together with no wakeup on its way |
| StreamGuarantees.RaiseWakesReader | src/sched/decentralised/decen_stream.c:133-137 | the next V of a sleeping reader's producer ends in exactly one unblock of that reader |
| StreamGuarantees.AtMostOneWakeup | src/sched/decentralised/decen_stream.c:84-160 | at most one wakeup of a task is in flight or decided, over all its streams, and then it waits for it |
| StreamGuarantees.PollReturn | src/sched/decentralised/decen_stream.c:419-520 | when a poll returns: the descriptor is in the set and its buffer is not empty, no stream of the task keeps is_poll, no wakeup of the task is left or owed, and on the slow path exactly one party took the token: the poller, which then consumed no wakeup, or the producer of the returned stream, and then exactly one |
| StreamGuarantees.PollSleep | src/sched/decentralised/decen_stream.c:443-489 | a poller that sleeps has a wakeup coming from a stream of its set with data, or the token is there and every stream of the set is empty and flagged |
| StreamGuarantees.PollWakeupNotDropped | src/sched/decentralised/decen_stream.c:133-160 | a producer that took the token always finds n_sem at 0 or above, so it sends the wakeup |
| StreamGuarantees.TokenGone | src/sched/decentralised/decen_stream.c:492 | the assert that the token is gone before streams are unregistered holds |
| StreamGuarantees.TryWriteBlocksIff | src/sched/decentralised/decen_stream.c:181-189 | a try-write refuses exactly a full stream, and exactly when it blocks all the same |
| StreamGuarantees.TryWriteCanBlock | src/sched/decentralised/decen_stream.c:181-189 | that happens |
| PollRotation.PicksNoLater | src/sched/decentralised/decen_stream.c:433-442 | in any run, a poll that begins with data in stream k of its iteration order returns, on the fast path, stream k or an earlier one |
| PollRotation.NoStarvation | src/sched/decentralised/decen_stream.c:414-442 | with the rotation, a stream that keeps its data is returned within as many polls of the set as it has streams, in every interleaving with the producers |
| StreamSet.RotatedStartsAfter | src/sched/decentralised/decen_stream.c:414-417 | after the handle is set to a descriptor, iteration starts with the one after it and ends with it, in the same cyclic order |
| StreamSet.Set.Rotate | src/sched/decentralised/decen_stream.c:517 | the assignment to the handle rotates the circular list so |
| StreamSet.EveryElementOnce | src/streamset.c:150-273 | for any mixture of Next, Append and Remove: every element, old or appended, is returned once and in order, and the set ends as what was kept |
| StreamSet.IterationByOps | src/streamset.c:150-273 | told from the operations alone: the k-th Next returns the k-th of the old and then the appended elements, and the set holds those no Remove took |
| StreamSet.Set.Put | src/streamset.c:40-52 | put appends to the circular list, which stays well formed |
| StreamSet.Set.Remove | src/streamset.c:62-87 | remove finds the node exactly if it is in the set, and takes out only that node |
| StreamSet.Iterator.HasNextIff | src/streamset.c:166-170 | HasNext is true exactly while an element is left to return |
| StreamSet.Iterator.GetNext | src/streamset.c:181-197 | returns the next element, adds it to those visited, and leaves the set as it was, with the pointers cur and prev following |
| StreamSet.Iterator.AppendNode | src/streamset.c:205-238 | the set is its old elements followed by the node, and the iteration goes on where it was |
| StreamSet.Iterator.RemoveCurrent | src/streamset.c:250-273 | the element just returned, be it the first, the last or the only one, is taken out and no other |
| SpmdGuarantees.LockStep | src/sched/decentralised/spmdext.c:106-211 | all workers execute the same requests in queue order, none more than one ahead of another |
| SpmdGuarantees.CriticalSectionIsExclusive | src/sched/decentralised/spmdext.c:136-153 | in the master's critical section every other worker waits with its semaphore at 0 and cannot touch the queue |
| SpmdGuarantees.WakeupAfterAllLeft | src/sched/decentralised/spmdext.c:190-205 | the requesting task is woken only after every other worker has left that request, tasks are woken in queue order, and the assert on the pending flag holds |
| SpmdGuarantees.ServedInRequestOrder | src/sched/decentralised/spmdext.c:106-232 | in every run, with the requests (worker, task) read off the calls: the i-th task woken is the i-th that asked, each worker has executed a first part of the requests in that order, and the slots from qhead on hold the next ones |
| SpmdGuarantees.LeavesHandlerIff | src/sched/decentralised/spmdext.c:113-120 | a worker leaves the handler exactly when it looks for a request and none waits |
| SpmdGuarantees.StepIsProgress | src/sched/decentralised/spmdext.c:106-211 | each step of a worker in the handler brings it further in its request, which it executes once, or on to the next one, or out |
| SpmdGuarantees.RequestFindsFreeSlot | src/sched/decentralised/spmdext.c:214-232 | a worker outside the handler has no pending request, the slot it fills is free, and qtail never exceeds 2N-1 |
| SpmdGuarantees.RingHoldsWaitingRequests | src/sched/decentralised/spmdext.c:114-153 | the filled slots are exactly a run from qhead modulo N that holds the waiting requests in order, and the tail correction keeps the residue |
| SpmdGuarantees.NoDeadlock | src/sched/decentralised/spmdext.c:106-211 | if every worker is in the handler, one of them can go on |
| MasterGuarantees.OnePlace | src/sched/hierarchy/hrc_worker_op.c:266-347 | every task is in exactly one of: message of a new task, ready queue, assign message, worker, return message, parked, destroyed; held there once and nowhere else; its state character agrees |
| MasterGuarantees.NeverTwoWorkers | src/sched/hierarchy/hrc_worker_op.c:140-171 | no task is given to two workers, or twice to one, or while it is queued or on its way back |
| MasterGuarantees.StateAssertsHold | src/sched/hierarchy/hrc_worker_op.c:266-347 | the asserts on task states and on the searched queue hold |
| MasterGuarantees.OneCredit | src/sched/hierarchy/hrc_worker_op.c:126-171 | each worker has exactly one request over its request messages, its waiting flag, its assign messages and the task it runs, so its mailbox never holds two tasks |
| MasterGuarantees.OneReadyPerEpisode | src/sched/hierarchy/hrc_worker_op.c:289-330 | a task is made ready exactly once per decision to block; outside such an episode no wakeup of it is owed, in flight or noted |
| MasterGuarantees.WakeupReturnConfluence | src/sched/hierarchy/hrc_worker_op.c:289-330 | for a blocked task whose wakeup and return are both with the master: when the loop ends between them, and otherwise either order reaches the same state, with the task made ready once and wakenup 0 |
| MasterGuarantees.EmptiedIff | src/sched/hierarchy/hrc_worker_op.c:200-222 | the neighbour update of a return empties the ready queue exactly if it was empty, or held one task that is valid afterwards while a worker waits |
| MasterLaws.RequestLaw | src/sched/hierarchy/hrc_worker_op.c:247-264 | in every reachable state: on a request the worker comes to wait, with queue, tasks and mailboxes unchanged, exactly if the queue is empty or its head is invalid; otherwise the old head is the one task added to that worker's mailbox and taken from the queue |
| MasterLaws.NeighboursLaw | src/sched/hierarchy/hrc_worker_op.c:173-193 | the update of the neighbours gives each listed task in the queue the priority and validity computed last for it, and touches no other key and no task |
| MasterLaws.ServeHeadLaw | src/sched/hierarchy/hrc_worker_op.c:206-221 | after it the head goes to the lowest waiting worker exactly if it is valid and one waits; otherwise nothing changes |
| MasterLaws.ProcessReadyLaw | src/sched/hierarchy/hrc_worker_op.c:228-245 | a ready task that is invalid is queued with its old priority, a valid one goes to the lowest waiting worker or is queued with its computed priority, and no other task, key or mailbox changes |
| MasterLaws.ReturnLaw | src/sched/hierarchy/hrc_worker_op.c:289-319 | a return first updates the neighbours and hands out at most the head; then the task is destroyed if it exited, parked if it is blocked and not yet woken, and otherwise made ready with its flag cleared |
| MasterLaws.WakeupLaw | src/sched/hierarchy/hrc_worker_op.c:321-330 | a wakeup makes a parked task ready and is only noted on any other |
| MasterLaws.NewTaskLaw | src/sched/hierarchy/hrc_worker_op.c:276-287 | a new task goes to the lowest waiting worker, or is queued with the key it has |
| MasterLaws.TerminateLaw | src/sched/hierarchy/hrc_worker_op.c:339-346 | a terminate message sets terminate, changes nothing else, and ends the loop at once exactly if the queue is empty |
| MasterLaws.ChoiceLaw | src/sched/hierarchy/hrc_worker_op.c:667-706 | in every reachable state: a running task becomes a zombie exactly if it exits and ready exactly if it yields, then its worker has to request before it returns it; a wakeup is owed exactly if it blocks |
| MasterHistory.SendsValid | src/sched/hierarchy/hrc_worker_op.c:159-345 | in every run, with or without a demand limit: a task that the master sends to a worker, on whatever message, is valid then; a new one that is sent at once is as it was created |
| MasterHistory.NewTasksAsCreated | src/sched/hierarchy/hrc_worker_op.c:276-287 | in every run: until the master sees it, a new task is valid and has the priority it was created with |
| MasterHistory.ZombieIffExited | src/sched/hierarchy/hrc_worker_op.c:289-318 | in every run: a task is a zombie exactly if it has exited, and is destroyed only then |
| MasterOrder.WorkConserving | src/sched/hierarchy/hrc_worker_op.c:159-264 | without a demand limit: after every step of every run either no worker is waiting or the ready queue is empty |
| MasterOrder.ReadyQueueOrdered | src/sched/hierarchy/hrc_worker_op.c:173-264 | without a demand limit: after every step of every run the ready queue is in heap order, and no valid task in it has a higher priority than its head, whatever priorities the neighbours are given |
| MasterOrder.SendsMaximum | src/sched/hierarchy/hrc_worker_op.c:159-264 | without a demand limit: whatever message makes the master send a task to a worker, that task is valid and no task that stays queued has a higher priority |
| MasterObject.MasterContext.ServePendingReq | src/sched/hierarchy/hrc_worker_op.c:159-171 | the loop gives the task to the lowest waiting worker, or reports that none waits |
| MasterObject.MasterContext.UpdatePriorityList | src/sched/hierarchy/hrc_worker_op.c:173-193 | the loop over the stream list makes the updates of module Master, in list order |
| MasterObject.MasterContext.ServeTop | src/sched/hierarchy/hrc_worker_op.c:206-220 | a valid head goes to a waiting worker; if none waits, setting its state back leaves everything as it was |
| MasterObject.MasterContext.ProcessTaskReq | src/sched/hierarchy/hrc_worker_op.c:247-264 | the head goes to the worker's mailbox and leaves the queue, or, exactly if there is none or it is invalid, the worker waits with all else as it was |
| MasterObject.MasterContext.Turn | src/sched/hierarchy/hrc_worker_op.c:266-347 | one turn of the master's loop in place is the step of module Master |
| MasterObject.TurnReady | src/sched/hierarchy/hrc_worker_op.c:266-347 | in every reachable state the next turn finds what its handlers rely on |
| TaskQueue.PushOrders | src/sched/hierarchy/hrc_taskqueue.c:113-125 | a push keeps the heap order, also on the path that leaves an invalid task at the end |
| TaskQueue.PushKeeps | src/sched/hierarchy/hrc_taskqueue.c:113-125 | a push adds one task and loses none |
| TaskQueue.RemoveHeadOrders | src/sched/hierarchy/hrc_taskqueue.c:90-94 | removing the head keeps the order, and occupying the head is removing it |
| TaskQueue.OccupyKeeps | src/sched/hierarchy/hrc_taskqueue.c:184-190 | occupying removes exactly one task |
| TaskQueue.HeadIsMaximum | src/sched/hierarchy/hrc_taskqueue.c:131-136 | the head of an ordered queue is a maximum |
| TaskQueue.HeadTops | src/sched/hierarchy/hrc_taskqueue.c:131-136 | so, if any queued task is valid, the head is, and no valid one has a higher priority |
| TaskQueue.GeqIff | src/sched/hierarchy/hrc_taskqueue.c:30-42 | what the comparison means: an invalid task ranks below every valid one, and valid ones rank by priority |
| TaskQueue.UpdatePriorityOrdersIff | src/sched/hierarchy/hrc_taskqueue.c:169-178 | exactly when an update after a change of validity keeps the order |
| TaskQueue.UpdatePriorityOrders | src/sched/hierarchy/hrc_taskqueue.c:169-178 | it does whenever validity is unchanged or just dropped |
| TaskQueue.UpdatePriorityKeeps | src/sched/hierarchy/hrc_taskqueue.c:169-178 | an update loses no task |
| TaskQueue.NewPriority | src/sched/hierarchy/hrc_taskqueue.c:169-178 | after an update the task has the new priority and its old validity, every other key is as it was, and an ordered queue is ordered for these keys |
| TaskQueue.RevivedCanBreakOrder | src/sched/hierarchy/hrc_taskqueue.c:169-178 | a task made valid again can break the order |
| TaskQueue.SetValidOrdersIff | src/sched/hierarchy/hrc_worker_op.c:183-190 | exactly when a change of validity without an update keeps the order |
| TaskQueue.SetValidCanBreakOrder | src/sched/hierarchy/hrc_worker_op.c:183-190 | it can break it |
| TaskQueue.CompareRealIsExactIff | src/sched/hierarchy/hrc_taskqueue.c:37-38 | exactly when the difference of two doubles, converted to int, has a value and the right sign |
| TaskQueue.CompareRealIsNotTransitive | src/sched/hierarchy/hrc_taskqueue.c:37-38 | equality under it is not transitive |
| TaskQueue.NewTaskComparesIff | src/sched/hierarchy/hrc_task.c:419-428 | exactly when the priority of a new task compares to another with a defined result |
| TaskQueue.Queue.UpHeap | src/sched/hierarchy/hrc_taskqueue.c:45-55 | the loop with one final store is the recursive sift of swaps |
| TaskQueue.Queue.DownHeap | src/sched/hierarchy/hrc_taskqueue.c:57-74 | the same downwards |
| TaskQueue.Queue.PushTask | src/sched/hierarchy/hrc_taskqueue.c:113-125 | the push on the array, which may have to grow, adds the task and keeps the order |
| TaskQueue.Queue.Peek | src/sched/hierarchy/hrc_taskqueue.c:131-136 | peek returns a maximum of an ordered queue, or tells that it is empty |
| TaskQueue.Queue.Pop | src/sched/hierarchy/hrc_taskqueue.c:142-149 | pop takes out the head, a maximum of an ordered queue, and leaves the rest in order |
| TaskQueue.Queue.OccupyTask | src/sched/hierarchy/hrc_taskqueue.c:184-190 | occupying on the array takes out that task only, and keeps the order if it was the head |
| TaskQueue.Queue.ChangePriority | src/sched/hierarchy/hrc_taskqueue.c:169-178 | the task gets the new priority and keeps its validity, no other key changes, no task is lost, and an ordered queue stays ordered for the new keys |
| DecenGuarantees.OnePlace | src/sched/decentralised/decen_worker.c:308-347 | every task is in exactly one place over all workers, held there once, through start, wakeup, yield, both migrations and exit |
| DecenGuarantees.CountIsExact | src/sched/decentralised/decen_worker.c:418-461 | num_tasks is the number of live tasks at the worker, one more only between sending off a migrated task and discounting it; it never wraps |
| DecenGuarantees.NothingLost | src/sched/decentralised/decen_worker.c:494-556 | all counts and all assign messages in flight together are the started live tasks |
| DecenGuarantees.EndedOwnsNothing | src/sched/decentralised/decen_worker.c:609-642 | a worker that has left its loop has no task queued, running, blocked or about to migrate |
| DecenGuarantees.StateAsserts | src/sched/decentralised/decen_worker.c:494-556 | the asserts on task states hold |
| DecenLaws.ChoiceLaw | src/sched/decentralised/decen_task.c:134-253 | in every reachable state and for every choice of a running task: it is gone exactly if it exits, back in its own worker's queue exactly if it yields without migrating, on its way to the target exactly under LPEL_MIG_WAIT_PROP with a target above 0 or random migration with a target, in both cases another worker; a block makes one wakeup of it owed; otherwise it runs on |
| DecenHistory.GoneIffExited | src/sched/decentralised/decen_worker.c:418-427 | in every run: a task is gone exactly if it has exited |
| DecenLaws.WakeupLaw | src/sched/decentralised/decen_worker.c:308-355 | a wakeup from the task's own worker makes it ready there, or sends it to the target counted no more here; any other one is a message to its worker |
| DecenLaws.MessageLaw | src/sched/decentralised/decen_worker.c:494-603 | a worker handles its oldest message: an assigned task is queued and counted, a woken one made ready, terminate noted, and nothing else changes |
| DecenLaws.FetchLaw | src/sched/decentralised/decen_worker.c:263-275 | a worker begins a task exactly if its queue holds one, and takes just that one out |
| DecenLaws.SendOffLaw | src/sched/decentralised/decen_worker.c:622-627 | a migrated task is sent to its new worker, which is not this one, before it is discounted |
| DecenLaws.EndsIff | src/sched/decentralised/decen_worker.c:609-642 | a worker leaves its loop exactly when its mailbox is empty, it counts no task, and it has been told to terminate |
| DecenRuns.StrandedIff | src/sched/decentralised/decen_worker.c:308-318 | exactly which steps send a task to a worker that has ended |
| DecenRuns.StrandedForever | src/sched/decentralised/decen_worker.c:609-642 | no step frees such a task |
| DecenRuns.EndsWithEmptyMailbox | src/sched/decentralised/decen_worker.c:596-642 | a worker leaves its loop with an empty mailbox, so none ends on an assignment it has already got |
| DecenRuns.OrderlyNeverStrands | src/sched/decentralised/decen_worker.c:373-384 | if terminate is sent only when no started task lives and none is started later, no run strands a task |
| DecenRuns.NoMigrationNeverStrands | src/sched/decentralised/decen_worker.c:308-318 | without migration it is enough that no task is started after the first terminate |
| DecenRuns.StrandedAssign | src/sched/decentralised/decen_worker.c:609-642 | a run that strands a task |
| DecenStackGuarantees.HomeIff | src/sched/decentralised/decen_worker.c:247-275 | exactly when the task on whose stack a dispatcher runs is sent to another worker |
| DecenStackGuarantees.NoSharedStack | src/sched/decentralised/decen_worker.c:247-275 | in a run without such a step no two workers are on the stack of one task |
| DecenStackGuarantees.NoSharedStackByMechanism | src/sched/decentralised/decen_worker.c:308-318 | so it is in every run without migration or with random migration |
| DecenStackGuarantees.CollisionIff | src/sched/decentralised/decen_worker.c:247-275 | after such a step some continuation begins the task elsewhere while its stack is in use, exactly if the target has not ended |
| DecenStackGuarantees.SharedStack | src/sched/decentralised/decen_worker.c:308-318 | a run in which two workers are on one stack |
| Mailbox.ReceivedInSendOrder | src/mailbox.c:116-171 | in every interleaving, messages are received in send order, none lost or doubled, and a receiver delivers the message it took |
| Mailbox.DeliversInOrder | src/mailbox.c:116-171 | in every run, with the messages read off the calls: the receive that takes the k-th node delivers the k-th message sent, however long it holds the node |
| Mailbox.NodesPartitioned | src/mailbox.c:28-56 | inbox, free list and the nodes held by senders and receivers are disjoint and together every node ever allocated |
| Mailbox.MailboxObject.GetFreeNode | src/mailbox.c:28-44 | a node from the free list, or a new one |
| Mailbox.MailboxObject.Insert | src/mailbox.c:124-141 | the locked section of a send appends to the circular inbox |
| Mailbox.MailboxObject.Extract | src/mailbox.c:149-165 | the locked section of a receive takes the oldest node |
| Mailbox.MailboxObject.GiveBack | src/mailbox.c:46-56 | the node goes back to the free list and no message changes |
| Mailbox.MailboxObject.Receive | src/mailbox.c:144-171 | a receive delivers the oldest message and leaves the others |
| MailboxWait.WaitingIsHarmless | src/mailbox.c:144-171 | with waiting receivers what was received is still a first part of what was sent, nodes stay partitioned, and a woken receiver can always go on |
| MailboxWait.OneReceiverMissesNothing | src/mailbox.c:126-152 | while the only receiver sleeps the inbox is empty, in every run, spurious wakeups included |
| MailboxWait.MissedIff | src/mailbox.c:126-152 | exactly when a receiver comes to sleep over a message with nobody woken for it |
| MailboxWait.TwoReceiversCanMiss | src/mailbox.c:126-152 | with two receivers that happens |
| Mpsc.OutInSwapOrder | archive/oldsrc/mpsctq.c:26-90 | with any number of enqueuers: tasks come out in the order of their swaps, each once, never the stub, and the rest is in the chain |
| Mpsc.DequeuesInOrder | archive/oldsrc/mpsctq.c:26-90 | in every run, told from the calls: the k-th dequeue that returns a task returns the k-th task swapped in, and the tasks after those are in the chain |
| Mpsc.BrokenOnlyInFlight | archive/oldsrc/mpsctq.c:26-52 | two neighbours of the chain are unlinked exactly while a thread between its swap and its link owes that link |
| Mpsc.LinkedOnce | archive/oldsrc/mpsctq.c:26-52 | no node, in particular not the stub, is linked twice |
| Mpsc.NextAsserts | archive/oldsrc/mpsctq.c:26-90 | the asserts on next pointers hold |
| Mpsc.LoneCall | archive/oldsrc/mpsctq.c:55-90 | what an uninterrupted dequeue returns and leaves, and exactly when it returns NULL |
| Mpsc.TwoCallsSuffice | archive/oldsrc/mpsctq.c:55-90 | with no enqueue in flight two calls get the oldest task of a non-empty queue |
| Mpsc.Drain | archive/oldsrc/mpsctq.c:55-90 | exactly how many calls empty the queue |
| Mpsc.LoneEnqueue | archive/oldsrc/mpsctq.c:26-52 | an uninterrupted enqueue appends |
| Mpsc.TaskQueue.Dequeue | archive/oldsrc/mpsctq.c:55-90 | the dequeue on the queue's fields is the uninterrupted call |
| FlagTree.GatherExact | archive/oldsrc/flagtree.c:92-130 | on any tree a gather reports, in increasing order and once each, the leaves whose whole path to the root is set |
| FlagTree.GatherAll | archive/oldsrc/flagtree.c:92-130 | if a set node implies a set parent, it reports exactly the marked leaves and leaves the tree all clear |
| FlagTree.MarkAddsLeaf | archive/oldsrc/flagtree.h:69-83 | a mark adds its leaf and no other and keeps set nodes below set parents |
| FlagTree.GrowKeepsLeaves | archive/oldsrc/flagtree.c:54-90 | growing keeps exactly the marked leaves |
| FlagTree.FlagTree.Mark | archive/oldsrc/flagtree.h:69-83 | the loop up to the root in place, with a root that is its own parent |
| FlagTree.FlagTree.Gather | archive/oldsrc/flagtree.h:142-199 | the iterative gather terminates and does exactly what the recursive one does |
| FlagTree.FlagTree.GatherRecursively | archive/oldsrc/flagtree.c:92-130 | the recursive gather in place |
| FlagTree.FlagTree.Grow | archive/oldsrc/flagtree.c:54-90 | growing in place |
| FlagTreeRun.NothingLost | archive/oldsrc/flagtree.h:69-199 | with any number of markers beside a gatherer, a set node has its parent set, or a marker about to set it, or the gatherer still due to examine it |
| FlagTreeRun.Quiescent | archive/oldsrc/flagtree.h:69-199 | with no marker under way and the gatherer done, every set leaf has a fully set path, and the set leaves are those marked and not yet reported |
| FlagTreeRun.SetIffMarkedSince | archive/oldsrc/flagtree.h:69-199 | in every run, at any time: a leaf's flag is set exactly if some mark of it came after its last report |
| FlagTreeRun.NextGatherReports | archive/oldsrc/flagtree.h:142-199 | the next gather reports exactly those |
| FlagTreeRun.NextGatherReportsMarked | archive/oldsrc/flagtree.h:142-199 | so, with no marker under way, it reports exactly the leaves marked since their last report |
| FlagTreeRun.MarkLaw | archive/oldsrc/flagtree.h:69-83 | a mark sets its leaf first, then one parent at a time until the root, and disturbs no other marker |

## Left out

- The stream, SPMD, master/worker and decentralised protocols of decen_stream.c, spmdext.c, hrc_task.c,
  decen_worker.c and decen_task.c are modelled on values, one interleaved step at a time: a method would
  run to its end, which is what these functions do not do. Update in place and aliasing of stream
  descriptors, task and worker records are not captured there.
- StreamNet: opening, closing and replacing a stream (decen_stream.c:271-360); both ends are fixed.
- Spmd: a worker that reads a slot of the request queue between its reservation and its filling.
- Spmd: the request function itself, and the virtual worker ids.
- Decen: the SPMDREQ messages that make waiting workers enter the SPMD handler; the order of the
  scheduler queue; marked_del and the release of a task's stack.
- DecenGuarantees.EndedOwnsNothing: does not cover an assignment that arrives after the worker has ended;
  DecenRuns.StrandedIff does.
- Master: wrappers and their mailboxes; the free lists of wrappers, streams and descriptors.
- MasterOrder.WorkConserving: says nothing about a positive demand limit, under which the ready queue
  may be headed by an invalid task while a worker waits.
- TaskQueue.CompareRealIsExactIff: the rounding of the subtraction of two doubles is not modelled.
- Mailbox: the destruction of a mailbox; a failing malloc.
- FlagTreeRun: growing the tree beside markers, which the original guards with a lock.
- src/sched/hierarchy/hrc_stream.c and hrc_buffer.c: the same stream protocol, mostly without its bound.
- src/sched/hierarchy/taskpriority.c: formulas with one branch each.
- Context switches, thread creation and affinity, configuration, monitoring, timing, mutexes and the
  spinning semaphore: machine code, system calls, file output or the clock.
