/**
  The hierarchical scheduler without a demand limit (neg_demand_lim at most 0): over whole runs no
  worker waits while a task is queued, the ready queue is ordered, and the task handed out is a
  maximum.
 */
module MasterOrder {
  import opened TaskQueue
  import opened Master

  /** The first n tasks are known and valid. */
  ghost predicate AllValid(info: Table, n: nat) { forall t: TaskId :: t < n ==> t in info && info[t].valid }

  /** Every task is valid, a worker waits only while no task is queued, and the queue is ordered. */
  ghost predicate Busy(sys: Sys) {
    && Shape(sys) && !sys.limit && AllValid(sys.info, |sys.tasks|)
    && (sys.ready == [] || NoneWaiting(sys.waiting))
    && HeapOk(sys.ready, sys.info)
  }

  // Inside a turn of the master, which found the task records ts

  predicate Sent(ts: seq<Task>, sys: Sys, t: TaskId)
    requires t < |ts| == |sys.tasks|
  {
    !ts[t].place.Assigned? && sys.tasks[t].place.Assigned?
  }

  ghost predicate AtLeastAll(sys: Sys, t: TaskId) {
    forall u :: u in sys.ready ==> Geq(sys.info, t, u)
  }

  /** No task has been sent yet. */
  ghost predicate Going(ts: seq<Task>, sys: Sys) {
    && Busy(sys) && |sys.tasks| == |ts|
    && forall t: TaskId :: t < |ts| ==> !Sent(ts, sys, t)
  }

  /** A task that has been sent to a worker is at least every task that is still queued. */
  ghost predicate Done(ts: seq<Task>, sys: Sys) {
    && Busy(sys) && |sys.tasks| == |ts|
    && forall t: TaskId :: t < |ts| && Sent(ts, sys, t) ==> AtLeastAll(sys, t)
  }

  /** Another record for a task */
  lemma RecordGoing(ts: seq<Task>, sys: Sys, t: TaskId, x: Task)
    requires Going(ts, sys) && t < |sys.tasks| && (x.place == sys.tasks[t].place || !x.place.Assigned?)
    ensures Going(ts, SetTask(sys, t, x))
  {
    forall u: TaskId | u < |ts| ensures !Sent(ts, SetTask(sys, t, x), u) {
      assert !Sent(ts, sys, u);
    }
  }

  // ---------------------------------------------------------------------------
  // Serving and queueing

  lemma KeysSame(h: seq<TaskId>, info: Table, info': Table)
    requires forall u :: u in h ==> Key(info', u) == Key(info, u)
    ensures HeapOk(h, info') == HeapOk(h, info)
  {
    forall pos | 2 <= pos <= |h| ensures Geq(info', h[Parent(pos) - 1], h[pos - 1]) == Geq(info, h[Parent(pos) - 1], h[pos - 1]) {
    }
  }

  lemma InHandNotQueued(sys: Sys, t: TaskId)
    requires Shape(sys) && t < |sys.tasks| && PlaceOk(sys, t) && sys.tasks[t].place != Queue
    ensures t !in sys.ready
  {
    assert multiset(sys.ready)[t] == 0;
  }

  lemma ServeOrEnqueueDone(ts: seq<Task>, sys: Sys, t: TaskId, info: Table)
    requires Going(ts, sys) && t < |sys.tasks| && t !in sys.ready && AllValid(info, |sys.tasks|)
    requires forall u: TaskId :: u != t ==> Key(info, u) == Key(sys.info, u)
    ensures Done(ts, ServeOrEnqueue(sys, t, info))
  {
    KeysSame(sys.ready, sys.info, info);
    PushOrders(sys.ready, t, info);
    var i := FirstWaiting(sys.waiting);
    if i == |sys.waiting| {
      forall u: TaskId | u < |ts| ensures !Sent(ts, Enqueue(sys.(info := info), t), u) {
        assert !Sent(ts, sys, u);
      }
    }
  }

  lemma ProcessReadyDone(ts: seq<Task>, sys: Sys, t: TaskId, valid: bool, prio: int)
    requires Going(ts, sys) && t < |sys.tasks| && t !in sys.ready
    ensures Done(ts, ProcessReady(sys, t, valid, prio))
  {
    ServeOrEnqueueDone(ts, sys, t, SetPrio(sys.info, t, prio));
  }

  // ---------------------------------------------------------------------------
  // The neighbours of a returned task

  lemma TwiceCounts(h: seq<TaskId>, i: nat, j: nat)
    requires i < j < |h| && h[i] == h[j]
    ensures multiset(h)[h[i]] >= 2
  {
    assert h == h[..j] + h[j..];
    assert h[..j][i] in multiset(h[..j]) && h[j..][0] in multiset(h[j..]);
  }

  lemma OnceFromCount(h: seq<TaskId>, t: TaskId)
    requires multiset(h)[t] == 1
    ensures Once(h, t)
  {
    assert t in multiset(h);
    forall i, j | 0 <= i < |h| && 0 <= j < |h| && h[i] == t && h[j] == t ensures i == j {
      if i < j {
        TwiceCounts(h, i, j);
      } else if j < i {
        TwiceCounts(h, j, i);
      }
    }
  }

  lemma UpdateNeighbourBusy(sys: Sys, x: Update)
    requires Busy(sys) && TasksOk(sys)
    ensures Busy(UpdateNeighbour(sys, x))
  {
    if x.u < |sys.tasks| && sys.tasks[x.u].state == INQUEUE && x.u in sys.ready && x.reprioritise {
      assert x.u in multiset(sys.ready);
      TaskAt(sys, x.u);
      OnceFromCount(sys.ready, x.u);
      NewPriorityOrders(sys.ready, x.u, x.np, sys.info);
    }
  }

  lemma {:induction false} UpdateNeighboursBusy(sys: Sys, updates: seq<Update>)
    requires Busy(sys) && TasksOk(sys)
    ensures Busy(UpdateNeighbours(sys, updates))
    decreases |updates|
  {
    if updates != [] {
      UpdateNeighbourBusy(sys, updates[0]);
      UpdateNeighbourOk(sys, updates[0]);
      UpdateNeighboursBusy(UpdateNeighbour(sys, updates[0]), updates[1..]);
    }
  }

  /** With a task queued no worker waits, so the head stays. */
  lemma HeadStays(sys: Sys)
    requires Busy(sys)
    ensures ServeHead(sys) == sys
  {
  }

  // ---------------------------------------------------------------------------
  // The handlers

  lemma NewTaskDone(sys: Sys, t: TaskId)
    requires Inv(sys) && Busy(sys) && sys.mbox != [] && t < |sys.tasks| && sys.mbox[0] == NewTask(t)
    ensures Done(sys.tasks, HandleNewTask(sys.(mbox := sys.mbox[1..]), t))
  {
    var sys0 := sys.(mbox := sys.mbox[1..]);
    NewTaskInHand(sys, t);
    RecordGoing(sys.tasks, sys0, t, sys.tasks[t].(place := Hand, state := READY));
    var sys1 := SetTask(sys0, t, sys.tasks[t].(place := Hand, state := READY));
    InHandNotQueued(sys1, t);
    ServeOrEnqueueDone(sys.tasks, sys1, t, sys.info);
  }

  lemma MakeReadyDone(ts: seq<Task>, sys: Sys, t: TaskId, valid: bool, prio: int)
    requires Going(ts, sys) && t < |sys.tasks| && t !in sys.ready
    ensures Done(ts, MakeReady(sys, t, valid, prio))
  {
    var x := sys.tasks[t].(state := READY, unblocks := sys.tasks[t].unblocks + 1);
    RecordGoing(ts, sys, t, x);
    ProcessReadyDone(ts, SetTask(sys, t, x), t, valid, prio);
  }

  lemma WakeupDone(sys: Sys, t: TaskId, valid: bool, prio: int)
    requires Inv(sys) && Busy(sys) && sys.mbox != [] && t < |sys.tasks| && sys.mbox[0] == Wakeup(t)
    ensures Done(sys.tasks, HandleWakeup(sys.(mbox := sys.mbox[1..]), t, valid, prio))
  {
    var sys0 := sys.(mbox := sys.mbox[1..]);
    if sys.tasks[t].state == RETURNED {
      WakeupParked(sys, t);
      RecordGoing(sys.tasks, sys0, t, sys.tasks[t].(place := Hand));
      InHandNotQueued(TakeInHand(sys0, t), t);
      MakeReadyDone(sys.tasks, TakeInHand(sys0, t), t, valid, prio);
    } else {
      RecordGoing(sys.tasks, sys0, t, sys.tasks[t].(wakenup := true));
    }
  }

  lemma ProcessReturnedDone(ts: seq<Task>, sys: Sys, t: TaskId, valid: bool, prio: int)
    requires Going(ts, sys) && t < |sys.tasks| && t !in sys.ready
    ensures Done(ts, ProcessReturned(sys, t, valid, prio))
  {
    var x := sys.tasks[t];
    match x.state {
      case BLOCKED =>
        if x.wakenup {
          RecordGoing(ts, sys, t, x.(wakenup := false));
          MakeReadyDone(ts, SetTask(sys, t, x.(wakenup := false)), t, valid, prio);
        } else {
          RecordGoing(ts, sys, t, x.(state := RETURNED, place := Parked));
        }
      case READY => ProcessReadyDone(ts, sys, t, valid, prio);
      case _ => RecordGoing(ts, sys, t, x.(place := Destroyed));
    }
  }

  lemma ReturnDone(sys: Sys, t: TaskId, updates: seq<Update>, valid: bool, prio: int)
    requires Inv(sys) && Busy(sys) && sys.mbox != [] && t < |sys.tasks| && sys.mbox[0] == Return(t)
    ensures Done(sys.tasks, HandleReturn(sys.(mbox := sys.mbox[1..]), t, updates, valid, prio))
  {
    var sys0 := sys.(mbox := sys.mbox[1..]);
    ReturnInHand(sys, t);
    var sys1 := TakeInHand(sys0, t);
    RecordGoing(sys.tasks, sys0, t, sys.tasks[t].(place := Hand));
    NeighboursInHand(sys1, updates, t);
    var sys2 := UpdateNeighbours(sys1, updates);
    UpdateNeighboursShape(sys1, updates);
    UpdateNeighboursBusy(sys1, updates);
    HeadStays(sys2);
    TaskAt(sys2, t);
    InHandNotQueued(sys2, t);
    SameTasksGoing(sys.tasks, sys1, sys2);
    ProcessReturnedDone(sys.tasks, sys2, t, valid, prio);
  }

  lemma SameTasksGoing(ts: seq<Task>, sys: Sys, sys': Sys)
    requires Going(ts, sys) && Busy(sys') && sys'.tasks == sys.tasks
    ensures Going(ts, sys')
  {
    forall t: TaskId | t < |ts| ensures !Sent(ts, sys', t) {
      assert !Sent(ts, sys, t);
    }
  }

  /** The head that is handed out was a maximum, and the rest is ordered. */
  lemma HandoutDone(sys: Sys, w: WorkerId)
    requires Busy(sys) && w < |sys.wbox| && sys.ready != [] && sys.ready[0] < |sys.tasks|
    ensures Done(sys.tasks, Handout(sys, w))
  {
    var t, sys' := sys.ready[0], Handout(sys, w);
    RemoveHeadOrders(sys.ready, sys.info);
    OccupyKeeps(sys.ready, t, sys.info);
    forall u | u in sys'.ready ensures Geq(sys.info, t, u) {
      assert u in multiset(sys'.ready);
      assert u in sys.ready;
      var i :| 0 <= i < |sys.ready| && sys.ready[i] == u;
      HeadIsMaximum(sys.ready, sys.info, i + 1);
    }
  }

  lemma RequestDone(sys: Sys, w: WorkerId)
    requires InRange(sys) && Busy(sys) && w < |sys.wbox|
    ensures Done(sys.tasks, ProcessRequest(sys, w))
  {
    if sys.ready != [] {
      HandoutDone(sys, w);
    }
  }

  lemma HandleDone(sys: Sys, updates: seq<Update>, valid: bool, prio: int)
    requires Inv(sys) && Busy(sys) && sys.mbox != [] && MsgOk(sys, sys.mbox[0])
    ensures Done(sys.tasks, Handle(sys.(mbox := sys.mbox[1..]), sys.mbox[0], updates, valid, prio))
  {
    match sys.mbox[0]
    case NewTask(t) => NewTaskDone(sys, t);
    case Return(t) => ReturnDone(sys, t, updates, valid, prio);
    case Wakeup(t) => WakeupDone(sys, t, valid, prio);
    case Request(w) =>
      TakeMsgOthers(sys, 0);
      RequestDone(sys.(mbox := sys.mbox[1..]), w);
    case Terminate =>
  }

  lemma StepMasterDone(sys: Sys, updates: seq<Update>, valid: bool, prio: int)
    requires Inv(sys) && Busy(sys) && Enabled(sys, MasterStep(updates, valid, prio))
    ensures Done(sys.tasks, StepMaster(sys, updates, valid, prio))
  {
    HandleDone(sys, updates, valid, prio);
    EndTurnDone(sys.tasks, Handle(sys.(mbox := sys.mbox[1..]), sys.mbox[0], updates, valid, prio));
  }

  lemma EndTurnDone(ts: seq<Task>, sys: Sys)
    requires Done(ts, sys)
    ensures Done(ts, EndTurn(sys))
  {
    forall t: TaskId | t < |ts| && Sent(ts, EndTurn(sys), t) ensures AtLeastAll(EndTurn(sys), t) {
      assert Sent(ts, sys, t);
    }
  }

  // ---------------------------------------------------------------------------
  // Runs

  /** What the queue and the waiting workers depend on */
  ghost predicate SameLoad(sys: Sys, sys': Sys) {
    && sys'.waiting == sys.waiting && sys'.ready == sys.ready && sys'.info == sys.info && sys'.limit == sys.limit
    && |sys'.wbox| == |sys.wbox| && |sys'.worker| == |sys.worker| && |sys'.tasks| == |sys.tasks|
  }

  lemma LeaveKeeps(sys: Sys, w: WorkerId, t: TaskId, choice: Choice)
    requires w < |sys.worker| && t < |sys.tasks|
    ensures SameLoad(sys, Leave(sys, w, t, choice))
  {
  }

  lemma StepWorkerKeeps(sys: Sys, w: WorkerId, choice: Choice)
    requires Shape(sys) && w < |sys.worker| && WorkerReady(sys, w)
    ensures SameLoad(sys, StepWorker(sys, w, choice))
  {
    match sys.worker[w]
    case Run(t) => LeaveKeeps(sys, w, t, choice);
    case Idle => assert SameLoad(sys, Receive(sys, w));
    case _ =>
  }

  lemma SpawnBusy(sys: Sys, prio: int)
    requires Inv(sys) && Busy(sys)
    ensures Busy(SpawnTask(sys, prio))
  {
    FreshTask(sys);
    KeysSame(sys.ready, sys.info, SpawnTask(sys, prio).info);
  }

  lemma ApplyBusy(sys: Sys, a: Action)
    requires Inv(sys) && Busy(sys) && Enabled(sys, a)
    ensures Busy(Apply(sys, a))
  {
    match a
    case MasterStep(updates, valid, prio) => StepMasterDone(sys, updates, valid, prio);
    case WorkerStep(w, choice) => StepWorkerKeeps(sys, w, choice);
    case Spawn(prio) => SpawnBusy(sys, prio);
    case _ =>
  }

  lemma {:induction false} BusyRun(states: seq<Sys>, acts: seq<Action>, i: nat)
    requires IsRun(states, acts) && i < |states| && !states[0].limit
    ensures Inv(states[i]) && Busy(states[i])
  {
    RunInv(states, acts, i);
    if i > 0 {
      BusyRun(states, acts, i - 1);
      ApplyBusy(states[i - 1], acts[i - 1]);
    }
  }

  /** Work conservation: after every step of every such run either no worker is waiting or the ready queue is empty. */
  lemma WorkConserving(states: seq<Sys>, acts: seq<Action>, i: nat)
    requires IsRun(states, acts) && i < |states| && !states[0].limit
    ensures states[i].ready == [] || forall w :: 0 <= w < |states[i].waiting| ==> !states[i].waiting[w]
  {
    BusyRun(states, acts, i);
  }

  /** After every step of every such run the ready queue is in heap order, and its first task ranks at its top. */
  lemma ReadyQueueOrdered(states: seq<Sys>, acts: seq<Action>, i: nat)
    requires IsRun(states, acts) && i < |states| && !states[0].limit
    ensures HeapOk(states[i].ready, states[i].info)
    ensures states[i].ready != [] ==> Tops(states[i].ready, states[i].info, states[i].ready[0])
  {
    BusyRun(states, acts, i);
    if states[i].ready != [] {
      HeadTops(states[i].ready, states[i].info);
    }
  }

  /** Whatever message makes the master send a task to a worker, the task is at least every task that stays queued. */
  lemma SendsMaximum(states: seq<Sys>, acts: seq<Action>, i: nat, t: TaskId, u: TaskId)
    requires IsRun(states, acts) && i < |acts| && !states[0].limit && acts[i].MasterStep?
    requires t < |states[i].tasks| == |states[i + 1].tasks| && Sent(states[i].tasks, states[i + 1], t) && u in states[i + 1].ready
    ensures var info := states[i + 1].info; Key(info, t).valid && Key(info, t).prio >= Key(info, u).prio
  {
    BusyRun(states, acts, i);
    StepMasterDone(states[i], acts[i].updates, acts[i].valid, acts[i].prio);
    assert AtLeastAll(states[i + 1], t);
    GeqIff(states[i + 1].info, t, u);
    StaysQueued(states, acts, i, u);
  }

  /** Queued tasks exist and are valid. */
  lemma StaysQueued(states: seq<Sys>, acts: seq<Action>, i: nat, u: TaskId)
    requires IsRun(states, acts) && i < |acts| && !states[0].limit && u in states[i + 1].ready
    ensures Key(states[i + 1].info, u).valid
  {
    BusyRun(states, acts, i + 1);
  }
}
