/**
  The hierarchical scheduler (hrc_worker_op.c, hrc_task.c): one master hands ready tasks to
  workers that ask for them. One action is one mailbox operation, one change of a task's state by
  its worker, or one whole message handler of the master.
 */
module Master {
  import opened TaskQueue

  type WorkerId = nat

  /** The state character of a task */
  datatype TaskState = CREATED | READY | INQUEUE | RUNNING | BLOCKED | RETURNED | ZOMBIE

  /** Messages to the master: ASSIGN (a new task), RETURN, WAKEUP, REQUEST and TERMINATE */
  datatype Msg = NewTask(t: TaskId) | Return(t: TaskId) | Wakeup(t: TaskId) | Request(w: WorkerId) | Terminate

  /** Messages to a worker */
  datatype WorkerMsg = Assign(t: TaskId) | Stop

  /** What a worker does next */
  datatype WorkerPc =
    | Starting                  // will send its first request
    | Idle                      // receives from its mailbox
    | Dispatch(t: TaskId)       // has switched to t
    | Run(t: TaskId)
    | WillBlock(t: TaskId)      // t has decided to block; whoever it waits for may wake it from now on
    | MustRequest(t: TaskId)    // t has set its state; the next request is due
    | MustReturn(t: TaskId)     // back on the worker; the return message is due
    | Ended

  /** Where a task is. Hand is the master's hand inside a handler. */
  datatype Place = NewMsg | Queue | Assigned(w: WorkerId) | OnWorker(w: WorkerId) | ReturnMsg | Parked | Hand | Destroyed

  /**
    lpel_task_t. `owed`: the wakeup of the current blocking episode has not been sent yet.
    `place`, `blocks` (decisions to block) and `unblocks` (times made ready after one) are history.
   */
  datatype Task = Task(state: TaskState, wakenup: bool, owed: bool, place: Place, blocks: nat, unblocks: nat)

  /**
    The master's context, all mailboxes, workers and tasks. `ready` is the heap of the ready
    queue, `info` the scheduling fields of the tasks, `limit` says whether neg_demand_lim is positive.
   */
  datatype Sys = Sys(
    mbox: seq<Msg>, wbox: seq<seq<WorkerMsg>>, waiting: seq<bool>,
    ready: seq<TaskId>, info: Table, limit: bool,
    terminate: bool, stopped: bool, told: bool,
    worker: seq<WorkerPc>, tasks: seq<Task>)

  /** A neighbour of a returned task, with the validity and priority computed for it. */
  datatype Update = Update(u: TaskId, valid: bool, reprioritise: bool, np: int)

  datatype Action =
    | Spawn(prio: int)
    | SendTerminate
    | SendWakeup(t: TaskId)
    | WorkerStep(w: WorkerId, choice: Choice)
    | MasterStep(updates: seq<Update>, valid: bool, prio: int)
    | TellWorkers

  /** What a running task does */
  datatype Choice = Block | Yield | Exit

  // ---------------------------------------------------------------------------
  // The master's handlers

  /** The lowest waiting worker, as the loop of servePendingReq finds it, or the number of workers. */
  function FirstWaiting(waiting: seq<bool>): (i: nat)
    ensures i <= |waiting|
    ensures i < |waiting| ==> waiting[i]
    ensures forall j :: 0 <= j < i ==> !waiting[j]
  {
    if waiting == [] then 0
    else if waiting[0] then 0
    else
      var i := FirstWaiting(waiting[1..]);
      assert forall j :: 1 <= j < i + 1 ==> waiting[j] == waiting[1..][j - 1];
      i + 1
  }

  ghost predicate NoneWaiting(waiting: seq<bool>) { forall w :: 0 <= w < |waiting| ==> !waiting[w] }

  ghost predicate Shape(sys: Sys) {
    |sys.wbox| == |sys.waiting| == |sys.worker|
  }

  function SetTask(sys: Sys, t: TaskId, x: Task): Sys
    requires t < |sys.tasks|
  {
    sys.(tasks := sys.tasks[t := x])
  }

  /** sendTask */
  function Send(sys: Sys, w: WorkerId, t: TaskId): Sys
    requires w < |sys.wbox| && t < |sys.tasks|
  {
    SetTask(sys.(wbox := sys.wbox[w := sys.wbox[w] + [Assign(t)]]), t, sys.tasks[t].(place := Assigned(w)))
  }

  /** Pushes t to the ready queue. */
  function Enqueue(sys: Sys, t: TaskId): Sys
    requires t < |sys.tasks|
  {
    SetTask(sys.(ready := TaskQueue.Push(sys.ready, t, sys.info)), t, sys.tasks[t].(state := INQUEUE, place := Queue))
  }

  /** servePendingReq, and the queue, with table info, if no worker is waiting */
  function ServeOrEnqueue(sys: Sys, t: TaskId, info: Table): Sys
    requires Shape(sys) && t < |sys.tasks|
  {
    var i := FirstWaiting(sys.waiting);
    if i < |sys.waiting| then Send(sys.(waiting := sys.waiting[i := false]), i, t)
    else Enqueue(sys.(info := info), t)
  }

  /** LpelTaskUpdateValid: the flag can change only under a positive demand limit. */
  function UpdateValid(sys: Sys, t: TaskId, valid: bool): Sys {
    if sys.limit then sys.(info := SetValid(sys.info, t, valid)) else sys
  }

  /** processTaskReady */
  function ProcessReady(sys: Sys, t: TaskId, valid: bool, prio: int): Sys
    requires Shape(sys) && t < |sys.tasks|
  {
    var sys1 := UpdateValid(sys, t, valid);
    if !Key(sys1.info, t).valid then Enqueue(sys1, t) else ServeOrEnqueue(sys1, t, SetPrio(sys1.info, t, prio))
  }

  /** One element of updatePriorityList */
  function UpdateNeighbour(sys: Sys, x: Update): Sys
  {
    if x.u < |sys.tasks| && sys.tasks[x.u].state == INQUEUE && x.u in sys.ready then
      var sys1 := UpdateValid(sys, x.u, x.valid);
      if x.reprioritise then
        sys1.(ready := UpdatePriority(sys1.ready, x.u, x.np, sys1.info), info := SetPrio(sys1.info, x.u, x.np))
      else sys1
    else sys
  }

  function UpdateNeighbours(sys: Sys, updates: seq<Update>): Sys
    decreases |updates|
  {
    if updates == [] then sys else UpdateNeighbours(UpdateNeighbour(sys, updates[0]), updates[1..])
  }

  /** The end of updateNeighours: a valid head goes to a waiting worker. */
  function ServeHead(sys: Sys): Sys
    requires Shape(sys)
  {
    var i := FirstWaiting(sys.waiting);
    if sys.ready != [] && sys.ready[0] < |sys.tasks| && Key(sys.info, sys.ready[0]).valid && i < |sys.waiting| then
      Handout(sys.(waiting := sys.waiting[i := false]), i)
    else sys
  }

  /** Sends the head of the queue to w and removes it. */
  function Handout(sys: Sys, w: WorkerId): Sys
    requires w < |sys.wbox| && sys.ready != [] && sys.ready[0] < |sys.tasks|
  {
    var t := sys.ready[0];
    var sys1 := SetTask(sys, t, sys.tasks[t].(state := READY));
    Send(sys1, w, t).(ready := Occupy(sys.ready, t, sys.info))
  }

  /** processTaskReq */
  function ProcessRequest(sys: Sys, w: WorkerId): Sys
    requires Shape(sys) && w < |sys.wbox|
  {
    if sys.ready != [] && sys.ready[0] < |sys.tasks| && Key(sys.info, sys.ready[0]).valid then Handout(sys, w)
    else sys.(waiting := sys.waiting[w := true])
  }

  /** The master takes t out of a message into its hand. */
  function TakeInHand(sys: Sys, t: TaskId): Sys
    requires t < |sys.tasks|
  {
    SetTask(sys, t, sys.tasks[t].(place := Hand))
  }

  function MakeReady(sys: Sys, t: TaskId, valid: bool, prio: int): Sys
    requires Shape(sys) && t < |sys.tasks|
  {
    ProcessReady(SetTask(sys, t, sys.tasks[t].(state := READY, unblocks := sys.tasks[t].unblocks + 1)), t, valid, prio)
  }

  /** The switch on the state of a returned task */
  function ProcessReturned(sys: Sys, t: TaskId, valid: bool, prio: int): Sys
    requires Shape(sys) && t < |sys.tasks|
  {
    var x := sys.tasks[t];
    match x.state
    case BLOCKED =>
      if x.wakenup then MakeReady(SetTask(sys, t, x.(wakenup := false)), t, valid, prio)
      else SetTask(sys, t, x.(state := RETURNED, place := Parked))
    case READY => ProcessReady(sys, t, valid, prio)
    case _ => SetTask(sys, t, x.(place := Destroyed))
  }

  function HandleReturn(sys: Sys, t: TaskId, updates: seq<Update>, valid: bool, prio: int): Sys
    requires Shape(sys) && t < |sys.tasks|
  {
    UpdateNeighboursShape(TakeInHand(sys, t), updates);
    var sys1 := UpdateNeighbours(TakeInHand(sys, t), updates);
    ProcessReturned(ServeHead(sys1), t, valid, prio)
  }

  lemma {:induction false} UpdateNeighboursShape(sys: Sys, updates: seq<Update>)
    ensures var sys' := UpdateNeighbours(sys, updates);
      sys' == sys.(ready := sys'.ready, info := sys'.info)
    decreases |updates|
  {
    if updates != [] {
      UpdateNeighboursShape(UpdateNeighbour(sys, updates[0]), updates[1..]);
    }
  }

  function HandleWakeup(sys: Sys, t: TaskId, valid: bool, prio: int): Sys
    requires Shape(sys) && t < |sys.tasks|
  {
    if sys.tasks[t].state != RETURNED then SetTask(sys, t, sys.tasks[t].(wakenup := true))
    else MakeReady(TakeInHand(sys, t), t, valid, prio)
  }

  function HandleNewTask(sys: Sys, t: TaskId): Sys
    requires Shape(sys) && t < |sys.tasks|
  {
    ServeOrEnqueue(SetTask(sys, t, sys.tasks[t].(place := Hand, state := READY)), t, sys.info)
  }

  /** One turn of MasterLoop on message m */
  function Handle(sys: Sys, m: Msg, updates: seq<Update>, valid: bool, prio: int): Sys
    requires Shape(sys)
    requires m.NewTask? || m.Return? || m.Wakeup? ==> m.t < |sys.tasks|
    requires m.Request? ==> m.w < |sys.wbox|
  {
    match m
    case NewTask(t) => HandleNewTask(sys, t)
    case Return(t) => HandleReturn(sys, t, updates, valid, prio)
    case Wakeup(t) => HandleWakeup(sys, t, valid, prio)
    case Request(w) => ProcessRequest(sys, w)
    case Terminate => sys.(terminate := true)
  }

  function StepMaster(sys: Sys, updates: seq<Update>, valid: bool, prio: int): Sys
    requires Shape(sys) && sys.mbox != []
    requires MsgOk(sys, sys.mbox[0])
  {
    EndTurn(Handle(sys.(mbox := sys.mbox[1..]), sys.mbox[0], updates, valid, prio))
  }

  /** The condition of MasterLoop at the end of a turn */
  function EndTurn(sys: Sys): Sys { sys.(stopped := sys.terminate && sys.ready == []) }

  predicate MsgOk(sys: Sys, m: Msg) {
    && (m.NewTask? || m.Return? || m.Wakeup? ==> m.t < |sys.tasks|)
    && (m.Request? ==> m.w < |sys.wbox|)
  }

  // ---------------------------------------------------------------------------
  // Workers and tasks

  function Goto(sys: Sys, w: WorkerId, pc: WorkerPc): Sys
    requires w < |sys.worker|
  {
    sys.(worker := sys.worker[w := pc])
  }

  function Mail(sys: Sys, m: Msg): Sys {
    sys.(mbox := sys.mbox + [m])
  }

  function Receive(sys: Sys, w: WorkerId): Sys
    requires w < |sys.worker| && w < |sys.wbox| && sys.wbox[w] != []
    requires sys.wbox[w][0].Assign? ==> sys.wbox[w][0].t < |sys.tasks|
  {
    var sys1 := sys.(wbox := sys.wbox[w := sys.wbox[w][1..]]);
    match sys.wbox[w][0]
    case Assign(t) => Goto(SetTask(sys1, t, sys.tasks[t].(place := OnWorker(w))), w, Dispatch(t))
    case Stop => Goto(sys1, w, Ended)
  }

  /** A running task blocks, yields or exits. */
  function Leave(sys: Sys, w: WorkerId, t: TaskId, choice: Choice): Sys
    requires w < |sys.worker| && t < |sys.tasks|
  {
    var x := sys.tasks[t];
    match choice
    case Block => Goto(SetTask(sys, t, x.(owed := true, blocks := x.blocks + 1)), w, WillBlock(t))
    case Yield => Goto(SetTask(sys, t, x.(state := READY)), w, MustRequest(t))
    case Exit => Goto(SetTask(sys, t, x.(state := ZOMBIE)), w, MustRequest(t))
  }

  function StepWorker(sys: Sys, w: WorkerId, choice: Choice): Sys
    requires Shape(sys) && w < |sys.worker|
    requires WorkerReady(sys, w)
  {
    match sys.worker[w]
    case Starting => Mail(Goto(sys, w, Idle), Request(w))
    case Idle => Receive(sys, w)
    case Dispatch(t) => Goto(SetTask(sys, t, sys.tasks[t].(state := RUNNING)), w, Run(t))
    case Run(t) => Leave(sys, w, t, choice)
    case WillBlock(t) => Goto(SetTask(sys, t, sys.tasks[t].(state := BLOCKED)), w, MustRequest(t))
    case MustRequest(t) => Mail(Goto(sys, w, MustReturn(t)), Request(w))
    case MustReturn(t) => Mail(Goto(SetTask(sys, t, sys.tasks[t].(place := ReturnMsg)), w, Idle), Return(t))
    case Ended => sys
  }

  predicate HasTask(pc: WorkerPc) { !pc.Starting? && !pc.Idle? && !pc.Ended? }

  predicate WorkerReady(sys: Sys, w: WorkerId)
    requires w < |sys.worker|
  {
    && (HasTask(sys.worker[w]) ==> sys.worker[w].t < |sys.tasks|)
    && (sys.worker[w].Idle? ==>
          w < |sys.wbox| && sys.wbox[w] != [] && (sys.wbox[w][0].Assign? ==> sys.wbox[w][0].t < |sys.tasks|))
    && !sys.worker[w].Ended?
  }

  /** LpelTaskCreate, with the initial priority, and LpelTaskStart */
  function SpawnTask(sys: Sys, prio: int): Sys {
    var t := |sys.tasks|;
    Mail(sys.(tasks := sys.tasks + [Task(CREATED, false, false, NewMsg, 0, 0)], info := sys.info[t := Info(prio, true)]), NewTask(t))
  }

  function Broadcast(wbox: seq<seq<WorkerMsg>>): seq<seq<WorkerMsg>> {
    seq(|wbox|, w requires 0 <= w < |wbox| => wbox[w] + [Stop])
  }

  ghost predicate Enabled(sys: Sys, a: Action) {
    match a
    case Spawn(_) => true
    case SendTerminate => true
    case SendWakeup(t) => t < |sys.tasks| && sys.tasks[t].owed
    case WorkerStep(w, _) => w < |sys.worker| && WorkerReady(sys, w)
    case MasterStep(_, _, _) => !sys.stopped && sys.mbox != [] && MsgOk(sys, sys.mbox[0])
    case TellWorkers => sys.stopped && !sys.told
  }

  function Apply(sys: Sys, a: Action): Sys
    requires Shape(sys) && Enabled(sys, a)
  {
    match a
    case Spawn(prio) => SpawnTask(sys, prio)
    case SendTerminate => Mail(sys, Terminate)
    case SendWakeup(t) => Mail(SetTask(sys, t, sys.tasks[t].(owed := false)), Wakeup(t))
    case WorkerStep(w, choice) => StepWorker(sys, w, choice)
    case MasterStep(updates, valid, prio) => StepMaster(sys, updates, valid, prio)
    case TellWorkers => sys.(wbox := Broadcast(sys.wbox), told := true)
  }

  ghost predicate Init(sys: Sys) {
    && Shape(sys)
    && sys.mbox == [] && sys.ready == [] && sys.tasks == [] && !sys.terminate && !sys.stopped && !sys.told
    && forall w :: 0 <= w < |sys.worker| ==> sys.wbox[w] == [] && !sys.waiting[w] && sys.worker[w] == Starting
  }

  ghost predicate IsRun(states: seq<Sys>, acts: seq<Action>) {
    && |states| == |acts| + 1
    && Init(states[0])
    && forall i :: 0 <= i < |acts| ==>
         Shape(states[i]) && Enabled(states[i], acts[i]) && states[i + 1] == Apply(states[i], acts[i])
  }

  // ---------------------------------------------------------------------------
  // The invariant

  function Bit(b: bool): nat { if b then 1 else 0 }

  /** t is between the decision to block and being made ready again. */
  predicate InEpisode(sys: Sys, t: TaskId)
    requires t < |sys.tasks|
  {
    var x := sys.tasks[t];
    match x.place
    case OnWorker(w) => w < |sys.worker| && (sys.worker[w] == WillBlock(t) || x.state == BLOCKED)
    case ReturnMsg => x.state == BLOCKED
    case Hand => x.state == BLOCKED || x.state == RETURNED
    case Parked => true
    case _ => false
  }

  /** The state character agrees with the place. */
  predicate StateOk(sys: Sys, t: TaskId)
    requires t < |sys.tasks|
  {
    var x := sys.tasks[t];
    match x.place
    case NewMsg => x.state == CREATED
    case Queue => x.state == INQUEUE
    case Assigned(_) => x.state == READY
    case OnWorker(w) =>
      && w < |sys.worker|
      && (match sys.worker[w]
          case Dispatch(_) => x.state == READY
          case Run(_) => x.state == RUNNING
          case WillBlock(_) => x.state == RUNNING
          case MustRequest(_) => x.state in {READY, BLOCKED, ZOMBIE}
          case MustReturn(_) => x.state in {READY, BLOCKED, ZOMBIE}
          case _ => false)
    case ReturnMsg => x.state in {READY, BLOCKED, ZOMBIE}
    case Parked => x.state == RETURNED
    case Hand => x.state in {READY, BLOCKED, RETURNED, ZOMBIE}
    case Destroyed => x.state == ZOMBIE
  }

  /** t is in exactly the container its place names, once. */
  ghost predicate PlaceOk(sys: Sys, t: TaskId)
    requires Shape(sys) && t < |sys.tasks|
  {
    var x := sys.tasks[t];
    && multiset(sys.mbox)[NewTask(t)] == Bit(x.place == NewMsg)
    && multiset(sys.mbox)[Return(t)] == Bit(x.place == ReturnMsg)
    && multiset(sys.ready)[t] == Bit(x.place == Queue)
    && (forall w :: 0 <= w < |sys.wbox| ==> multiset(sys.wbox[w])[Assign(t)] == Bit(x.place == Assigned(w)))
    && (forall w :: 0 <= w < |sys.worker| ==>
          (HasTask(sys.worker[w]) && sys.worker[w].t == t <==> x.place == OnWorker(w)))
    && (x.place.Assigned? ==> x.place.w < |sys.wbox|)
    && (x.place.OnWorker? ==> x.place.w < |sys.worker|)
  }

  /** A blocking episode has exactly one wakeup: still owed, in the mailbox, or remembered. */
  ghost predicate WakeupOk(sys: Sys, t: TaskId)
    requires t < |sys.tasks|
  {
    var x := sys.tasks[t];
    && multiset(sys.mbox)[Wakeup(t)] + Bit(x.owed) + Bit(x.wakenup) == Bit(InEpisode(sys, t))
    && x.blocks == x.unblocks + Bit(InEpisode(sys, t))
    && (x.place == Parked ==> !x.wakenup)
  }

  ghost predicate TaskOk(sys: Sys, t: TaskId)
    requires Shape(sys) && t < |sys.tasks|
  {
    StateOk(sys, t) && PlaceOk(sys, t) && WakeupOk(sys, t)
  }

  predicate Holds(pc: WorkerPc) { pc.Starting? || pc.Dispatch? || pc.Run? || pc.WillBlock? || pc.MustRequest? }

  function Assigns(box: seq<WorkerMsg>): nat {
    if box == [] then 0 else Bit(box[0].Assign?) + Assigns(box[1..])
  }

  /** A worker's requests: in the master's mailbox, noted as waiting, being served, or not yet due. */
  function Credits(sys: Sys, w: WorkerId): nat
    requires Shape(sys) && w < |sys.worker|
  {
    multiset(sys.mbox)[Request(w)] + Bit(sys.waiting[w]) + Assigns(sys.wbox[w]) + Bit(Holds(sys.worker[w]))
  }

  /** Messages and worker program counters name existing tasks and workers. */
  ghost predicate InRange(sys: Sys) {
    && (forall i :: 0 <= i < |sys.mbox| ==> MsgOk(sys, sys.mbox[i]))
    && (forall i :: 0 <= i < |sys.ready| ==> sys.ready[i] < |sys.tasks|)
    && (forall w, i :: 0 <= w < |sys.wbox| && 0 <= i < |sys.wbox[w]| && sys.wbox[w][i].Assign? ==>
          sys.wbox[w][i].t < |sys.tasks|)
    && (forall w :: 0 <= w < |sys.worker| && HasTask(sys.worker[w]) ==> sys.worker[w].t < |sys.tasks|)
  }

  ghost predicate TasksOk(sys: Sys)
    requires Shape(sys)
  {
    InRange(sys) && forall t :: 0 <= t < |sys.tasks| ==> TaskOk(sys, t)
  }

  ghost predicate CreditsOk(sys: Sys)
    requires Shape(sys)
  {
    forall w :: 0 <= w < |sys.worker| ==> Credits(sys, w) == 1
  }

  /** Outside handlers the master's hand is empty. */
  ghost predicate HandEmpty(sys: Sys) {
    forall t :: 0 <= t < |sys.tasks| ==> sys.tasks[t].place != Hand
  }

  ghost predicate Inv(sys: Sys) {
    Shape(sys) && TasksOk(sys) && CreditsOk(sys) && HandEmpty(sys)
  }

  lemma InitInv(sys: Sys)
    requires Init(sys)
    ensures Inv(sys)
  {
  }

  // ---------------------------------------------------------------------------
  // Moving a task out of the master's hand

  lemma {:induction false} AssignsAppend(box: seq<WorkerMsg>, m: WorkerMsg)
    ensures Assigns(box + [m]) == Assigns(box) + Bit(m.Assign?)
  {
    if box != [] {
      assert (box + [m])[1..] == box[1..] + [m];
      AssignsAppend(box[1..], m);
    }
  }

  lemma TaskAt(sys: Sys, t: TaskId)
    requires Shape(sys) && TasksOk(sys) && t < |sys.tasks|
    ensures TaskOk(sys, t)
  {
  }

  /** Every task but t is all right. */
  ghost predicate OthersOk(sys: Sys, t: TaskId)
    requires Shape(sys)
  {
    InRange(sys) && forall u :: 0 <= u < |sys.tasks| && u != t ==> TaskOk(sys, u)
  }

  /** t is in the master's hand, ready, and no wakeup of it is anywhere. */
  ghost predicate ReadyInHand(sys: Sys, t: TaskId)
    requires Shape(sys)
  {
    && t < |sys.tasks|
    && sys.tasks[t].place == Hand && sys.tasks[t].state == READY
    && PlaceOk(sys, t) && WakeupOk(sys, t)
  }

  /** Place and state of tasks do not depend on priorities, validity and waiting flags. */
  ghost predicate SameQueues(sys: Sys, sys': Sys) {
    && sys'.mbox == sys.mbox && sys'.wbox == sys.wbox && multiset(sys'.ready) == multiset(sys.ready)
    && sys'.worker == sys.worker && sys'.tasks == sys.tasks && |sys'.waiting| == |sys.waiting|
  }

  lemma RangeFrame(sys: Sys, sys': Sys)
    requires Shape(sys) && SameQueues(sys, sys') && InRange(sys)
    ensures Shape(sys') && InRange(sys')
  {
    forall i | 0 <= i < |sys'.mbox| ensures MsgOk(sys', sys'.mbox[i]) {
      assert MsgOk(sys, sys.mbox[i]);
    }
    forall i | 0 <= i < |sys'.ready| ensures sys'.ready[i] < |sys.tasks| {
      assert sys'.ready[i] in multiset(sys'.ready);
      assert sys'.ready[i] in sys.ready;
    }
  }

  lemma QueuesFrame(sys: Sys, sys': Sys, t: TaskId)
    requires Shape(sys) && SameQueues(sys, sys') && OthersOk(sys, t)
    ensures Shape(sys') && OthersOk(sys', t)
    ensures ReadyInHand(sys, t) ==> ReadyInHand(sys', t)
    ensures TasksOk(sys) ==> TasksOk(sys')
  {
    RangeFrame(sys, sys');
    forall u | 0 <= u < |sys.tasks|
      ensures TaskOk(sys, u) ==> TaskOk(sys', u)
    {
    }
  }

  lemma SendOk(sys: Sys, w: WorkerId, t: TaskId)
    requires Shape(sys) && OthersOk(sys, t) && ReadyInHand(sys, t) && w < |sys.wbox|
    ensures Shape(Send(sys, w, t)) && TasksOk(Send(sys, w, t))
  {
    var sys' := Send(sys, w, t);
    forall u | 0 <= u < |sys.tasks| ensures TaskOk(sys', u) {
      assert u != t ==> TaskOk(sys, u);
    }
    forall i | 0 <= i < |sys'.mbox| ensures MsgOk(sys', sys'.mbox[i]) {
      assert MsgOk(sys, sys.mbox[i]);
    }
  }

  lemma EnqueueOk(sys: Sys, t: TaskId)
    requires Shape(sys) && OthersOk(sys, t) && ReadyInHand(sys, t)
    ensures Shape(Enqueue(sys, t)) && TasksOk(Enqueue(sys, t)) && Released(sys, Enqueue(sys, t), t)
  {
    var sys' := Enqueue(sys, t);
    PushKeeps(sys.ready, t, sys.info);
    forall u | 0 <= u < |sys.tasks| ensures TaskOk(sys', u) {
      assert u != t ==> TaskOk(sys, u);
    }
    forall i | 0 <= i < |sys'.mbox| ensures MsgOk(sys', sys'.mbox[i]) {
      assert MsgOk(sys, sys.mbox[i]);
    }
    forall i | 0 <= i < |sys'.ready| ensures sys'.ready[i] < |sys.tasks| {
      assert sys'.ready[i] in multiset(sys'.ready);
      assert sys'.ready[i] in sys.ready || sys'.ready[i] == t;
    }
  }

  /** A served or queued task has left the hand; no other task and no credit changes. */
  ghost predicate Released(sys: Sys, sys': Sys, t: TaskId)
    requires Shape(sys) && Shape(sys') && t < |sys.tasks|
  {
    && |sys'.tasks| == |sys.tasks| && |sys'.worker| == |sys.worker|
    && sys'.tasks[t].place != Hand
    && (forall u :: 0 <= u < |sys.tasks| && u != t ==> sys'.tasks[u] == sys.tasks[u])
    && (forall w :: 0 <= w < |sys.worker| ==> Credits(sys', w) == Credits(sys, w))
    && sys'.tasks[t] == sys.tasks[t].(place := sys'.tasks[t].place, state := sys'.tasks[t].state)
  }

  lemma ServeOrEnqueueOk(sys: Sys, t: TaskId, info: Table)
    requires Shape(sys) && OthersOk(sys, t) && ReadyInHand(sys, t)
    ensures var sys' := ServeOrEnqueue(sys, t, info);
      Shape(sys') && TasksOk(sys') && Released(sys, sys', t)
  {
    var i := FirstWaiting(sys.waiting);
    if i < |sys.waiting| {
      var sys1 := sys.(waiting := sys.waiting[i := false]);
      QueuesFrame(sys, sys1, t);
      SendOk(sys1, i, t);
      AssignsAppend(sys.wbox[i], Assign(t));
    } else {
      var sys1 := sys.(info := info);
      QueuesFrame(sys, sys1, t);
      EnqueueOk(sys1, t);
    }
  }

  lemma ProcessReadyOk(sys: Sys, t: TaskId, valid: bool, prio: int)
    requires Shape(sys) && OthersOk(sys, t) && ReadyInHand(sys, t)
    ensures var sys' := ProcessReady(sys, t, valid, prio);
      Shape(sys') && TasksOk(sys') && Released(sys, sys', t)
  {
    var sys1 := UpdateValid(sys, t, valid);
    QueuesFrame(sys, sys1, t);
    if !Key(sys1.info, t).valid {
      EnqueueOk(sys1, t);
      ReleasedFrame(sys, sys1, Enqueue(sys1, t), t);
    } else {
      ServeOrEnqueueOk(sys1, t, SetPrio(sys1.info, t, prio));
      ReleasedFrame(sys, sys1, ServeOrEnqueue(sys1, t, SetPrio(sys1.info, t, prio)), t);
    }
  }

  lemma ReleasedFrame(sys: Sys, sys1: Sys, sys': Sys, t: TaskId)
    requires Shape(sys) && Shape(sys1) && Shape(sys') && t < |sys.tasks|
    requires sys1 == sys.(info := sys1.info) && Released(sys1, sys', t)
    ensures Released(sys, sys', t)
  {
    assert forall w :: 0 <= w < |sys.worker| ==> Credits(sys1, w) == Credits(sys, w);
  }

  // ---------------------------------------------------------------------------
  // Neighbours and the head of the queue

  lemma UpdateNeighbourOk(sys: Sys, x: Update)
    requires Shape(sys) && TasksOk(sys)
    ensures var sys' := UpdateNeighbour(sys, x);
      Shape(sys') && TasksOk(sys') && sys' == sys.(ready := sys'.ready, info := sys'.info)
  {
    if x.u < |sys.tasks| && sys.tasks[x.u].state == INQUEUE && x.u in sys.ready && x.reprioritise {
      UpdatePriorityKeeps(sys.ready, x.u, x.np, UpdateValid(sys, x.u, x.valid).info);
    }
    QueuesFrame(sys, UpdateNeighbour(sys, x), 0);
  }

  lemma {:induction false} UpdateNeighboursOk(sys: Sys, updates: seq<Update>)
    requires Shape(sys) && TasksOk(sys)
    ensures var sys' := UpdateNeighbours(sys, updates);
      Shape(sys') && TasksOk(sys') && sys' == sys.(ready := sys'.ready, info := sys'.info)
    decreases |updates|
  {
    if updates != [] {
      UpdateNeighbourOk(sys, updates[0]);
      UpdateNeighboursOk(UpdateNeighbour(sys, updates[0]), updates[1..]);
    }
  }

  /** The queue without its head, which is in the master's hand. */
  function TakeHead(sys: Sys): Sys
    requires sys.ready != [] && sys.ready[0] < |sys.tasks|
  {
    var h := sys.ready[0];
    SetTask(sys.(ready := Occupy(sys.ready, h, sys.info)), h, sys.tasks[h].(state := READY, place := Hand))
  }

  lemma TakeHeadOk(sys: Sys)
    requires Shape(sys) && TasksOk(sys) && sys.ready != []
    ensures var h := sys.ready[0];
      && h < |sys.tasks| && sys.tasks[h].place == Queue
      && Shape(TakeHead(sys)) && OthersOk(TakeHead(sys), h) && ReadyInHand(TakeHead(sys), h)
  {
    var h := sys.ready[0];
    assert h in multiset(sys.ready);
    TaskAt(sys, h);
    var sys' := TakeHead(sys);
    OccupyKeeps(sys.ready, h, sys.info);
    TakeHeadRange(sys);
    forall u | 0 <= u < |sys.tasks| && u != h ensures TaskOk(sys', u) {
      TaskAt(sys, u);
      TakeHeadOther(sys, u);
    }
  }

  lemma TakeHeadOther(sys: Sys, u: TaskId)
    requires Shape(sys) && sys.ready != [] && sys.ready[0] < |sys.tasks| && u < |sys.tasks| && u != sys.ready[0] && TaskOk(sys, u)
    ensures TaskOk(TakeHead(sys), u)
  {
    OccupyKeeps(sys.ready, sys.ready[0], sys.info);
  }

  lemma TakeHeadRange(sys: Sys)
    requires Shape(sys) && InRange(sys) && sys.ready != []
    ensures sys.ready[0] < |sys.tasks| && Shape(TakeHead(sys)) && InRange(TakeHead(sys))
  {
    var sys' := TakeHead(sys);
    OccupyKeeps(sys.ready, sys.ready[0], sys.info);
    forall i | 0 <= i < |sys'.mbox| ensures MsgOk(sys', sys'.mbox[i]) {
      assert MsgOk(sys, sys.mbox[i]);
    }
    forall i | 0 <= i < |sys'.ready| ensures sys'.ready[i] < |sys.tasks| {
      assert sys'.ready[i] in multiset(sys'.ready);
      assert sys'.ready[i] in sys.ready;
    }
  }

  lemma HandoutOk(sys: Sys, w: WorkerId)
    requires Shape(sys) && TasksOk(sys) && w < |sys.wbox| && sys.ready != []
    ensures var h := sys.ready[0];
      && h < |sys.tasks| && sys.tasks[h].place == Queue
      && var sys' := Handout(sys, w);
      && Shape(sys') && TasksOk(sys')
      && sys'.tasks == sys.tasks[h := sys.tasks[h].(state := READY, place := Assigned(w))]
  {
    TakeHeadOk(sys);
    SendOk(TakeHead(sys), w, sys.ready[0]);
    assert Handout(sys, w) == Send(TakeHead(sys), w, sys.ready[0]);
  }

  lemma ServeHeadOk(sys: Sys)
    requires Shape(sys) && TasksOk(sys)
    ensures var sys' := ServeHead(sys);
      && Shape(sys') && TasksOk(sys') && |sys'.tasks| == |sys.tasks| && |sys'.worker| == |sys.worker|
      && (forall u :: 0 <= u < |sys.tasks| && sys.tasks[u].place == Hand ==> sys'.tasks[u] == sys.tasks[u])
      && (forall u :: 0 <= u < |sys.tasks| && sys'.tasks[u].place == Hand ==> sys.tasks[u].place == Hand)
      && (forall w :: 0 <= w < |sys.worker| ==> Credits(sys', w) == Credits(sys, w))
  {
    var i := FirstWaiting(sys.waiting);
    if sys.ready != [] && sys.ready[0] < |sys.tasks| && Key(sys.info, sys.ready[0]).valid && i < |sys.waiting| {
      var sys1 := sys.(waiting := sys.waiting[i := false]);
      QueuesFrame(sys, sys1, 0);
      HandoutOk(sys1, i);
      HandoutCredits(sys, i);
    }
  }

  /** The waiting flag of i becomes a task in its mailbox. */
  lemma HandoutCredits(sys: Sys, i: WorkerId)
    requires Shape(sys) && i < |sys.waiting| && sys.waiting[i] && sys.ready != [] && sys.ready[0] < |sys.tasks|
    ensures var sys' := Handout(sys.(waiting := sys.waiting[i := false]), i);
      Shape(sys') && |sys'.worker| == |sys.worker| && forall w :: 0 <= w < |sys.worker| ==> Credits(sys', w) == Credits(sys, w)
  {
    AssignsAppend(sys.wbox[i], Assign(sys.ready[0]));
  }

  // ---------------------------------------------------------------------------
  // The handlers

  /** Taking message m out of the mailbox affects only the task or worker it names. */
  lemma TakeMsgOthers(sys: Sys, t: TaskId)
    requires Shape(sys) && TasksOk(sys) && sys.mbox != []
    requires var m := sys.mbox[0]; (m.NewTask? || m.Return? || m.Wakeup?) ==> m.t == t
    ensures var sys' := sys.(mbox := sys.mbox[1..]); Shape(sys') && OthersOk(sys', t)
    ensures multiset(sys.mbox) == multiset{sys.mbox[0]} + multiset(sys.mbox[1..])
    ensures (sys.mbox[0].Request? || sys.mbox[0].Terminate?) ==> TasksOk(sys.(mbox := sys.mbox[1..]))
    ensures forall w :: 0 <= w < |sys.worker| ==>
              Credits(sys.(mbox := sys.mbox[1..]), w) == Credits(sys, w) - Bit(sys.mbox[0] == Request(w))
  {
    assert sys.mbox == [sys.mbox[0]] + sys.mbox[1..];
    var sys' := sys.(mbox := sys.mbox[1..]);
    forall u | 0 <= u < |sys.tasks|
      ensures u != t || sys.mbox[0].Request? || sys.mbox[0].Terminate? ==> TaskOk(sys', u)
    {
      TaskAt(sys, u);
    }
    forall i | 0 <= i < |sys'.mbox| ensures MsgOk(sys', sys'.mbox[i]) {
      assert MsgOk(sys, sys.mbox[i + 1]);
    }
  }

  /** Changing the record of t alone. */
  lemma HandFrame(sys: Sys, t: TaskId, x: Task)
    requires Shape(sys) && OthersOk(sys, t) && t < |sys.tasks|
    ensures var sys' := SetTask(sys, t, x); Shape(sys') && OthersOk(sys', t)
    ensures forall w :: 0 <= w < |sys.worker| ==> Credits(SetTask(sys, t, x), w) == Credits(sys, w)
  {
    var sys' := SetTask(sys, t, x);
    forall u | 0 <= u < |sys.tasks| && u != t ensures TaskOk(sys', u) {
      assert TaskOk(sys, u);
    }
    forall i | 0 <= i < |sys'.mbox| ensures MsgOk(sys', sys'.mbox[i]) {
      assert MsgOk(sys, sys.mbox[i]);
    }
  }

  /** The first message is about task t, and the master has taken t in its hand with record x. */
  lemma InHandOthers(sys: Sys, t: TaskId, x: Task)
    requires Inv(sys) && sys.mbox != [] && t < |sys.tasks|
    requires sys.mbox[0] in {NewTask(t), Return(t), Wakeup(t)}
    ensures var sys' := SetTask(sys.(mbox := sys.mbox[1..]), t, x); Shape(sys') && OthersOk(sys', t)
    ensures multiset(sys.mbox) == multiset{sys.mbox[0]} + multiset(sys.mbox[1..])
    ensures CreditsOk(SetTask(sys.(mbox := sys.mbox[1..]), t, x))
  {
    TakeMsgOthers(sys, t);
    HandFrame(sys.(mbox := sys.mbox[1..]), t, x);
  }

  /** Out of a handler that released t into the queue or to a worker. */
  lemma ReleasedInv(sys: Sys, sys1: Sys, sys': Sys, t: TaskId)
    requires Inv(sys) && Shape(sys1) && t < |sys.tasks| && |sys1.worker| == |sys.worker| && |sys1.tasks| == |sys.tasks|
    requires forall u :: 0 <= u < |sys.tasks| && u != t ==> sys1.tasks[u].place == Hand ==> sys.tasks[u].place == Hand
    requires CreditsOk(sys1) && Shape(sys') && TasksOk(sys') && Released(sys1, sys', t)
    ensures Inv(sys')
  {
  }

  lemma NewTaskInHand(sys: Sys, t: TaskId)
    requires Inv(sys) && sys.mbox != [] && t < |sys.tasks| && sys.mbox[0] == NewTask(t)
    ensures var sys2 := SetTask(sys.(mbox := sys.mbox[1..]), t, sys.tasks[t].(place := Hand, state := READY));
      Shape(sys2) && OthersOk(sys2, t) && ReadyInHand(sys2, t) && CreditsOk(sys2)
  {
    TaskAt(sys, t);
    InHandOthers(sys, t, sys.tasks[t].(place := Hand, state := READY));
  }

  lemma HandleNewTaskInv(sys: Sys, t: TaskId)
    requires Inv(sys) && sys.mbox != [] && t < |sys.tasks| && sys.mbox[0] == NewTask(t)
    ensures Inv(HandleNewTask(sys.(mbox := sys.mbox[1..]), t))
  {
    NewTaskInHand(sys, t);
    var sys2 := SetTask(sys.(mbox := sys.mbox[1..]), t, sys.tasks[t].(place := Hand, state := READY));
    ServeOrEnqueueOk(sys2, t, sys.info);
    ReleasedInv(sys, sys2, HandleNewTask(sys.(mbox := sys.mbox[1..]), t), t);
  }

  /** t is in the master's hand at the end of a blocking episode whose wakeup has been used up. */
  ghost predicate WokenInHand(sys: Sys, t: TaskId)
    requires Shape(sys)
  {
    && t < |sys.tasks| && PlaceOk(sys, t)
    && var x := sys.tasks[t];
    && x.place == Hand && !x.owed && !x.wakenup && x.blocks == x.unblocks + 1
    && multiset(sys.mbox)[Wakeup(t)] == 0
  }

  function Woken(sys: Sys, t: TaskId): Sys
    requires t < |sys.tasks|
  {
    SetTask(sys, t, sys.tasks[t].(state := READY, unblocks := sys.tasks[t].unblocks + 1))
  }

  lemma WokenIsReady(sys: Sys, t: TaskId)
    requires Shape(sys) && OthersOk(sys, t) && WokenInHand(sys, t) && CreditsOk(sys)
    ensures var sys1 := Woken(sys, t);
      Shape(sys1) && OthersOk(sys1, t) && ReadyInHand(sys1, t) && CreditsOk(sys1)
  {
    HandFrame(sys, t, sys.tasks[t].(state := READY, unblocks := sys.tasks[t].unblocks + 1));
  }

  lemma HandleWakeupInv(sys: Sys, t: TaskId, valid: bool, prio: int)
    requires Inv(sys) && sys.mbox != [] && t < |sys.tasks| && sys.mbox[0] == Wakeup(t)
    ensures Inv(HandleWakeup(sys.(mbox := sys.mbox[1..]), t, valid, prio))
  {
    if sys.tasks[t].state == RETURNED {
      WakeupParked(sys, t);
      var sys2 := TakeInHand(sys.(mbox := sys.mbox[1..]), t);
      WokenIsReady(sys2, t);
      ProcessReadyOk(Woken(sys2, t), t, valid, prio);
      ReleasedInv(sys, Woken(sys2, t), MakeReady(sys2, t, valid, prio), t);
    } else {
      WakeupEarly(sys, t);
    }
  }

  lemma WakeupParked(sys: Sys, t: TaskId)
    requires Inv(sys) && sys.mbox != [] && t < |sys.tasks| && sys.mbox[0] == Wakeup(t) && sys.tasks[t].state == RETURNED
    ensures var sys2 := TakeInHand(sys.(mbox := sys.mbox[1..]), t);
      Shape(sys2) && OthersOk(sys2, t) && WokenInHand(sys2, t) && CreditsOk(sys2)
  {
    TaskAt(sys, t);
    InHandOthers(sys, t, sys.tasks[t].(place := Hand));
  }

  /** A wakeup that comes before the return is remembered. */
  lemma WakeupEarly(sys: Sys, t: TaskId)
    requires Inv(sys) && sys.mbox != [] && t < |sys.tasks| && sys.mbox[0] == Wakeup(t) && sys.tasks[t].state != RETURNED
    ensures Inv(SetTask(sys.(mbox := sys.mbox[1..]), t, sys.tasks[t].(wakenup := true)))
  {
    TaskAt(sys, t);
    InHandOthers(sys, t, sys.tasks[t].(wakenup := true));
  }

  // A returned task

  /** t is in the master's hand after its return message, the neighbours have been updated. */
  ghost predicate ReturnedInHand(sys: Sys, t: TaskId)
    requires Shape(sys)
  {
    && TasksOk(sys) && CreditsOk(sys)
    && t < |sys.tasks| && sys.tasks[t].place == Hand && sys.tasks[t].state in {READY, BLOCKED, ZOMBIE}
    && forall u :: 0 <= u < |sys.tasks| && u != t ==> sys.tasks[u].place != Hand
  }

  lemma ReturnInHand(sys: Sys, t: TaskId)
    requires Inv(sys) && sys.mbox != [] && t < |sys.tasks| && sys.mbox[0] == Return(t)
    ensures var sys' := TakeInHand(sys.(mbox := sys.mbox[1..]), t); Shape(sys') && ReturnedInHand(sys', t)
  {
    TaskAt(sys, t);
    InHandOthers(sys, t, sys.tasks[t].(place := Hand));
  }

  lemma NeighboursInHand(sys: Sys, updates: seq<Update>, t: TaskId)
    requires Shape(sys) && ReturnedInHand(sys, t)
    ensures var sys' := UpdateNeighbours(sys, updates); Shape(sys') && ReturnedInHand(sys', t)
  {
    UpdateNeighboursOk(sys, updates);
    var sys' := UpdateNeighbours(sys, updates);
    assert forall w :: 0 <= w < |sys.worker| ==> Credits(sys', w) == Credits(sys, w);
  }

  lemma HeadInHand(sys: Sys, t: TaskId)
    requires Shape(sys) && ReturnedInHand(sys, t)
    ensures Shape(ServeHead(sys)) && ReturnedInHand(ServeHead(sys), t)
  {
    ServeHeadOk(sys);
  }

  lemma OthersFromAll(sys: Sys, t: TaskId)
    requires Shape(sys) && TasksOk(sys)
    ensures OthersOk(sys, t)
  {
  }

  /** Putting t down with record x. */
  lemma PutDown(sys: Sys, t: TaskId, x: Task)
    requires Shape(sys) && ReturnedInHand(sys, t)
    requires x.place != Hand && TaskOk(SetTask(sys, t, x), t)
    ensures Inv(SetTask(sys, t, x))
  {
    OthersFromAll(sys, t);
    HandFrame(sys, t, x);
  }

  lemma Released2(sys: Sys, sys1: Sys, sys': Sys, t: TaskId)
    requires Shape(sys) && ReturnedInHand(sys, t)
    requires Shape(sys1) && Shape(sys') && |sys1.tasks| == |sys.tasks| && |sys1.worker| == |sys.worker|
    requires forall u :: 0 <= u < |sys.tasks| && u != t ==> sys1.tasks[u] == sys.tasks[u]
    requires CreditsOk(sys1) && TasksOk(sys') && Released(sys1, sys', t)
    ensures Inv(sys')
  {
  }

  lemma WokenReturned(sys: Sys, t: TaskId)
    requires Shape(sys) && ReturnedInHand(sys, t) && sys.tasks[t].state == BLOCKED && sys.tasks[t].wakenup
    ensures var sys1 := SetTask(sys, t, sys.tasks[t].(wakenup := false));
      Shape(sys1) && OthersOk(sys1, t) && WokenInHand(sys1, t) && CreditsOk(sys1)
  {
    TaskAt(sys, t);
    OthersFromAll(sys, t);
    HandFrame(sys, t, sys.tasks[t].(wakenup := false));
  }

  lemma ReturnedWoken(sys: Sys, t: TaskId, valid: bool, prio: int)
    requires Shape(sys) && ReturnedInHand(sys, t) && sys.tasks[t].state == BLOCKED && sys.tasks[t].wakenup
    ensures Inv(ProcessReturned(sys, t, valid, prio))
  {
    var sys1 := SetTask(sys, t, sys.tasks[t].(wakenup := false));
    WokenReturned(sys, t);
    WokenIsReady(sys1, t);
    ProcessReadyOk(Woken(sys1, t), t, valid, prio);
    Released2(sys, Woken(sys1, t), MakeReady(sys1, t, valid, prio), t);
  }

  lemma ReturnedReady(sys: Sys, t: TaskId, valid: bool, prio: int)
    requires Shape(sys) && ReturnedInHand(sys, t) && sys.tasks[t].state == READY
    ensures Inv(ProcessReturned(sys, t, valid, prio))
  {
    TaskAt(sys, t);
    OthersFromAll(sys, t);
    ProcessReadyOk(sys, t, valid, prio);
    Released2(sys, sys, ProcessReady(sys, t, valid, prio), t);
  }

  /** Leaving the handler of a return: t goes to the queue, to a worker, is parked or destroyed. */
  lemma ProcessReturnedInv(sys: Sys, t: TaskId, valid: bool, prio: int)
    requires Shape(sys) && ReturnedInHand(sys, t)
    ensures Inv(ProcessReturned(sys, t, valid, prio))
  {
    var x := sys.tasks[t];
    if x.state == BLOCKED && x.wakenup {
      ReturnedWoken(sys, t, valid, prio);
    } else if x.state == READY {
      ReturnedReady(sys, t, valid, prio);
    } else {
      TaskAt(sys, t);
      PutDown(sys, t, if x.state == BLOCKED then x.(state := RETURNED, place := Parked) else x.(place := Destroyed));
    }
  }

  lemma HandleReturnInv(sys: Sys, t: TaskId, updates: seq<Update>, valid: bool, prio: int)
    requires Inv(sys) && sys.mbox != [] && t < |sys.tasks| && sys.mbox[0] == Return(t)
    ensures Inv(HandleReturn(sys.(mbox := sys.mbox[1..]), t, updates, valid, prio))
  {
    ReturnInHand(sys, t);
    var sys1 := TakeInHand(sys.(mbox := sys.mbox[1..]), t);
    NeighboursInHand(sys1, updates, t);
    var sys2 := UpdateNeighbours(sys1, updates);
    HeadInHand(sys2, t);
    ProcessReturnedInv(ServeHead(sys2), t, valid, prio);
  }

  // A request

  lemma RequestServed(sys: Sys, w: WorkerId)
    requires Shape(sys) && TasksOk(sys) && HandEmpty(sys) && w < |sys.wbox| && sys.ready != []
    requires forall v :: 0 <= v < |sys.worker| ==> Credits(sys, v) == 1 - Bit(v == w)
    ensures sys.ready[0] < |sys.tasks| && Inv(Handout(sys, w))
  {
    HandoutOk(sys, w);
    AssignsAppend(sys.wbox[w], Assign(sys.ready[0]));
    forall v | 0 <= v < |sys.worker| ensures Credits(Handout(sys, w), v) == 1 {
      assert Credits(sys, v) == 1 - Bit(v == w);
    }
  }

  lemma RequestNoted(sys: Sys, w: WorkerId)
    requires Shape(sys) && TasksOk(sys) && HandEmpty(sys) && w < |sys.wbox|
    requires forall v :: 0 <= v < |sys.worker| ==> Credits(sys, v) == 1 - Bit(v == w)
    ensures Inv(sys.(waiting := sys.waiting[w := true]))
  {
    var sys' := sys.(waiting := sys.waiting[w := true]);
    OthersFromAll(sys, 0);
    QueuesFrame(sys, sys', 0);
    forall v | 0 <= v < |sys.worker| ensures Credits(sys', v) == 1 {
      assert Credits(sys, v) == 1 - Bit(v == w);
    }
  }

  lemma ProcessRequestInv(sys: Sys, w: WorkerId)
    requires Inv(sys) && sys.mbox != [] && w < |sys.wbox| && sys.mbox[0] == Request(w)
    ensures Inv(ProcessRequest(sys.(mbox := sys.mbox[1..]), w))
  {
    TakeMsgOthers(sys, |sys.tasks|);
    if sys.ready != [] && sys.ready[0] < |sys.tasks| && Key(sys.info, sys.ready[0]).valid {
      RequestServed(sys.(mbox := sys.mbox[1..]), w);
    } else {
      RequestNoted(sys.(mbox := sys.mbox[1..]), w);
    }
  }

  lemma HandleInv(sys: Sys, updates: seq<Update>, valid: bool, prio: int)
    requires Inv(sys) && sys.mbox != [] && MsgOk(sys, sys.mbox[0])
    ensures Inv(Handle(sys.(mbox := sys.mbox[1..]), sys.mbox[0], updates, valid, prio))
  {
    match sys.mbox[0]
    case NewTask(t) => HandleNewTaskInv(sys, t);
    case Return(t) => HandleReturnInv(sys, t, updates, valid, prio);
    case Wakeup(t) => HandleWakeupInv(sys, t, valid, prio);
    case Request(w) => ProcessRequestInv(sys, w);
    case Terminate =>
      TakeMsgOthers(sys, |sys.tasks|);
      FlagsFrame(sys.(mbox := sys.mbox[1..]), sys.(mbox := sys.mbox[1..], terminate := true));
  }

  lemma StepMasterInv(sys: Sys, updates: seq<Update>, valid: bool, prio: int)
    requires Inv(sys) && Enabled(sys, MasterStep(updates, valid, prio))
    ensures Inv(StepMaster(sys, updates, valid, prio))
  {
    HandleInv(sys, updates, valid, prio);
    FlagsFrame(Handle(sys.(mbox := sys.mbox[1..]), sys.mbox[0], updates, valid, prio),
               StepMaster(sys, updates, valid, prio));
  }

  lemma FlagsFrame(sys: Sys, sys': Sys)
    requires Inv(sys) && sys' == sys.(terminate := sys'.terminate, stopped := sys'.stopped, told := sys'.told)
    ensures Inv(sys')
  {
    QueuesFrame(sys, sys', 0);
    assert forall w :: 0 <= w < |sys.worker| ==> Credits(sys', w) == Credits(sys, w);
  }

  // ---------------------------------------------------------------------------
  // Workers and callers

  /** Worker w, which runs t, moves on with t; nothing but t's record changes for the tasks. */
  lemma WorkerMove(sys: Sys, w: WorkerId, t: TaskId, x: Task, pc: WorkerPc)
    requires Inv(sys) && w < |sys.worker| && t < |sys.tasks|
    requires HasTask(sys.worker[w]) && sys.worker[w].t == t && HasTask(pc) && pc.t == t
    requires x.place == OnWorker(w) && Holds(pc) == Holds(sys.worker[w])
    requires var sys' := Goto(SetTask(sys, t, x), w, pc); StateOk(sys', t) && WakeupOk(sys', t)
    ensures Inv(Goto(SetTask(sys, t, x), w, pc))
  {
    var sys' := Goto(SetTask(sys, t, x), w, pc);
    forall u | 0 <= u < |sys.tasks| ensures TaskOk(sys', u) {
      TaskAt(sys, u);
      TaskAt(sys, t);
    }
    forall i | 0 <= i < |sys'.mbox| ensures MsgOk(sys', sys'.mbox[i]) {
      assert MsgOk(sys, sys.mbox[i]);
    }
    forall v | 0 <= v < |sys.worker| ensures Credits(sys', v) == 1 {
      assert Credits(sys, v) == 1;
    }
  }

  lemma RunningTask(sys: Sys, w: WorkerId)
    requires Inv(sys) && w < |sys.worker| && HasTask(sys.worker[w])
    ensures var t := sys.worker[w].t; t < |sys.tasks| && TaskOk(sys, t) && sys.tasks[t].place == OnWorker(w)
  {
    TaskAt(sys, sys.worker[w].t);
  }

  lemma MailFrame(sys: Sys, m: Msg)
    requires Shape(sys) && InRange(sys) && MsgOk(sys, m)
    ensures InRange(Mail(sys, m))
    ensures forall u :: 0 <= u < |sys.tasks| && TaskOk(sys, u) && m !in {NewTask(u), Return(u), Wakeup(u)} ==> TaskOk(Mail(sys, m), u)
  {
    var sys' := Mail(sys, m);
    forall i | 0 <= i < |sys'.mbox| ensures MsgOk(sys', sys'.mbox[i]) {
      assert i < |sys.mbox| ==> MsgOk(sys, sys.mbox[i]);
    }
    assert multiset(sys'.mbox) == multiset(sys.mbox) + multiset{m};
    forall u | 0 <= u < |sys.tasks| && TaskOk(sys, u) && m !in {NewTask(u), Return(u), Wakeup(u)}
      ensures TaskOk(sys', u)
    {
    }
  }

  lemma StartingInv(sys: Sys, w: WorkerId, choice: Choice)
    requires Inv(sys) && w < |sys.worker| && sys.worker[w].Starting?
    ensures Inv(StepWorker(sys, w, choice))
  {
    var sys1 := Goto(sys, w, Idle);
    forall u | 0 <= u < |sys.tasks| ensures TaskOk(sys1, u) {
      TaskAt(sys, u);
    }
    forall i | 0 <= i < |sys1.mbox| ensures MsgOk(sys1, sys1.mbox[i]) {
      assert MsgOk(sys, sys.mbox[i]);
    }
    MailFrame(sys1, Request(w));
    forall v | 0 <= v < |sys.worker| ensures Credits(Mail(sys1, Request(w)), v) == 1 {
      assert Credits(sys, v) == 1;
    }
  }

  lemma RequestSentTasks(sys: Sys, w: WorkerId)
    requires Inv(sys) && w < |sys.worker| && sys.worker[w].MustRequest?
    ensures forall u :: 0 <= u < |sys.tasks| ==> TaskOk(Goto(sys, w, MustReturn(sys.worker[w].t)), u)
  {
    RunningTask(sys, w);
    forall u | 0 <= u < |sys.tasks| ensures TaskOk(Goto(sys, w, MustReturn(sys.worker[w].t)), u) {
      TaskAt(sys, u);
      RequestSentTask(sys, w, u);
    }
  }

  lemma RequestSentTask(sys: Sys, w: WorkerId, u: TaskId)
    requires Shape(sys) && w < |sys.worker| && sys.worker[w].MustRequest? && u < |sys.tasks| && TaskOk(sys, u)
    ensures TaskOk(Goto(sys, w, MustReturn(sys.worker[w].t)), u)
  {
  }

  lemma MustRequestInv(sys: Sys, w: WorkerId, choice: Choice)
    requires Inv(sys) && w < |sys.worker| && sys.worker[w].MustRequest?
    ensures WorkerReady(sys, w) && Inv(StepWorker(sys, w, choice))
  {
    RunningTask(sys, w);
    var t := sys.worker[w].t;
    var sys1 := Goto(sys, w, MustReturn(t));
    RequestSentTasks(sys, w);
    forall i | 0 <= i < |sys1.mbox| ensures MsgOk(sys1, sys1.mbox[i]) {
      assert MsgOk(sys, sys.mbox[i]);
    }
    MailFrame(sys1, Request(w));
    forall v | 0 <= v < |sys.worker| ensures Credits(Mail(sys1, Request(w)), v) == 1 {
      assert Credits(sys, v) == 1;
    }
  }

  lemma MustReturnInv(sys: Sys, w: WorkerId, choice: Choice)
    requires Inv(sys) && w < |sys.worker| && sys.worker[w].MustReturn?
    ensures WorkerReady(sys, w) && Inv(StepWorker(sys, w, choice))
  {
    RunningTask(sys, w);
    var sys' := StepWorker(sys, w, choice);
    MustReturnTasks(sys, w, choice);
    forall i | 0 <= i < |sys'.mbox| ensures MsgOk(sys', sys'.mbox[i]) {
      assert i < |sys.mbox| ==> MsgOk(sys, sys.mbox[i]);
    }
    forall v | 0 <= v < |sys.worker| ensures Credits(sys', v) == 1 {
      assert Credits(sys, v) == 1;
      assert multiset(sys'.mbox) == multiset(sys.mbox) + multiset{Return(sys.worker[w].t)};
    }
  }

  lemma MustReturnTasks(sys: Sys, w: WorkerId, choice: Choice)
    requires Inv(sys) && w < |sys.worker| && sys.worker[w].MustReturn?
    ensures WorkerReady(sys, w) && TasksOk(StepWorker(sys, w, choice))
  {
    RunningTask(sys, w);
    var sys' := StepWorker(sys, w, choice);
    assert multiset(sys'.mbox) == multiset(sys.mbox) + multiset{Return(sys.worker[w].t)};
    forall u | 0 <= u < |sys.tasks| ensures TaskOk(sys', u) {
      TaskAt(sys, u);
    }
  }

  lemma ReceiveInv(sys: Sys, w: WorkerId)
    requires Inv(sys) && w < |sys.worker| && sys.worker[w].Idle? && WorkerReady(sys, w)
    ensures Inv(Receive(sys, w))
  {
    var sys' := Receive(sys, w);
    var box := sys.wbox[w];
    assert box == [box[0]] + box[1..];
    ReceiveTasks(sys, w);
    ReceiveCredits(sys, w);
    forall i | 0 <= i < |sys'.mbox| ensures MsgOk(sys', sys'.mbox[i]) {
      assert MsgOk(sys, sys.mbox[i]);
    }
  }

  lemma ReceiveCredits(sys: Sys, w: WorkerId)
    requires Inv(sys) && w < |sys.worker| && sys.worker[w].Idle? && WorkerReady(sys, w)
    ensures Shape(Receive(sys, w)) && CreditsOk(Receive(sys, w))
  {
    forall v | 0 <= v < |sys.worker| ensures Credits(Receive(sys, w), v) == 1 {
      assert Credits(sys, v) == 1;
    }
  }

  lemma ReceiveTasks(sys: Sys, w: WorkerId)
    requires Inv(sys) && w < |sys.worker| && sys.worker[w].Idle? && WorkerReady(sys, w)
    ensures forall u :: 0 <= u < |sys.tasks| ==> TaskOk(Receive(sys, w), u)
  {
    forall u | 0 <= u < |sys.tasks| ensures TaskOk(Receive(sys, w), u) {
      TaskAt(sys, u);
      if sys.wbox[w][0] == Assign(u) {
        ReceiveTask(sys, w, u);
      } else {
        ReceiveOther(sys, w, u);
      }
    }
  }

  lemma ReceiveTask(sys: Sys, w: WorkerId, u: TaskId)
    requires Shape(sys) && w < |sys.worker| && sys.worker[w].Idle? && WorkerReady(sys, w)
    requires u < |sys.tasks| && TaskOk(sys, u) && sys.wbox[w][0] == Assign(u)
    ensures TaskOk(Receive(sys, w), u)
  {
    var box := sys.wbox[w];
    assert box == [box[0]] + box[1..];
    assert multiset(box) == multiset{box[0]} + multiset(box[1..]);
    assert sys.tasks[u].place == Assigned(w);
  }

  lemma ReceiveOther(sys: Sys, w: WorkerId, u: TaskId)
    requires Shape(sys) && w < |sys.worker| && sys.worker[w].Idle? && WorkerReady(sys, w)
    requires u < |sys.tasks| && TaskOk(sys, u) && sys.wbox[w][0] != Assign(u)
    ensures TaskOk(Receive(sys, w), u)
  {
    ReceiveOtherPlace(sys, w, u);
    assert Receive(sys, w).tasks[u] == sys.tasks[u];
    assert !HasTask(sys.worker[w]) && sys.tasks[u].place != OnWorker(w);
  }

  lemma ReceiveOtherPlace(sys: Sys, w: WorkerId, u: TaskId)
    requires Shape(sys) && w < |sys.worker| && sys.worker[w].Idle? && WorkerReady(sys, w)
    requires u < |sys.tasks| && PlaceOk(sys, u) && sys.wbox[w][0] != Assign(u)
    ensures PlaceOk(Receive(sys, w), u)
  {
    var box := sys.wbox[w];
    assert box == [box[0]] + box[1..];
    assert multiset(box) == multiset{box[0]} + multiset(box[1..]);
    assert multiset(box[1..])[Assign(u)] == multiset(box)[Assign(u)];
  }

  lemma DispatchInv(sys: Sys, w: WorkerId, choice: Choice)
    requires Inv(sys) && w < |sys.worker| && sys.worker[w].Dispatch?
    ensures WorkerReady(sys, w) && Inv(StepWorker(sys, w, choice))
  {
    RunningTask(sys, w);
    var t := sys.worker[w].t;
    WorkerMove(sys, w, t, sys.tasks[t].(state := RUNNING), Run(t));
  }

  lemma WillBlockInv(sys: Sys, w: WorkerId, choice: Choice)
    requires Inv(sys) && w < |sys.worker| && sys.worker[w].WillBlock?
    ensures WorkerReady(sys, w) && Inv(StepWorker(sys, w, choice))
  {
    RunningTask(sys, w);
    var t := sys.worker[w].t;
    WorkerMove(sys, w, t, sys.tasks[t].(state := BLOCKED), MustRequest(t));
  }

  lemma LeaveInv(sys: Sys, w: WorkerId, choice: Choice)
    requires Inv(sys) && w < |sys.worker| && sys.worker[w].Run?
    ensures WorkerReady(sys, w) && Inv(StepWorker(sys, w, choice))
  {
    RunningTask(sys, w);
    var t := sys.worker[w].t;
    var x := sys.tasks[t];
    match choice
    case Block => WorkerMove(sys, w, t, x.(owed := true, blocks := x.blocks + 1), WillBlock(t));
    case Yield => WorkerMove(sys, w, t, x.(state := READY), MustRequest(t));
    case Exit => WorkerMove(sys, w, t, x.(state := ZOMBIE), MustRequest(t));
  }

  lemma StepWorkerInv(sys: Sys, w: WorkerId, choice: Choice)
    requires Inv(sys) && w < |sys.worker| && WorkerReady(sys, w)
    ensures Inv(StepWorker(sys, w, choice))
  {
    match sys.worker[w]
    case Starting => StartingInv(sys, w, choice);
    case Idle => ReceiveInv(sys, w);
    case Dispatch(_) => DispatchInv(sys, w, choice);
    case Run(_) => LeaveInv(sys, w, choice);
    case WillBlock(_) => WillBlockInv(sys, w, choice);
    case MustRequest(_) => MustRequestInv(sys, w, choice);
    case MustReturn(_) => MustReturnInv(sys, w, choice);
  }

  lemma SendWakeupInv(sys: Sys, t: TaskId)
    requires Inv(sys) && Enabled(sys, SendWakeup(t))
    ensures Inv(Apply(sys, SendWakeup(t)))
  {
    var sys' := Apply(sys, SendWakeup(t));
    assert multiset(sys'.mbox) == multiset(sys.mbox) + multiset{Wakeup(t)};
    forall u | 0 <= u < |sys.tasks| ensures TaskOk(sys', u) {
      TaskAt(sys, u);
    }
    forall i | 0 <= i < |sys'.mbox| ensures MsgOk(sys', sys'.mbox[i]) {
      assert i < |sys.mbox| ==> MsgOk(sys, sys.mbox[i]);
    }
    forall v | 0 <= v < |sys.worker| ensures Credits(sys', v) == 1 {
      assert Credits(sys, v) == 1;
    }
  }

  lemma SpawnInv(sys: Sys, prio: int)
    requires Inv(sys)
    ensures Inv(SpawnTask(sys, prio))
  {
    var sys' := SpawnTask(sys, prio);
    var t := |sys.tasks|;
    assert multiset(sys'.mbox) == multiset(sys.mbox) + multiset{NewTask(t)};
    FreshTask(sys);
    forall u | 0 <= u < |sys'.tasks| ensures TaskOk(sys', u) {
      if u < t {
        TaskAt(sys, u);
      }
    }
    forall i | 0 <= i < |sys'.mbox| ensures MsgOk(sys', sys'.mbox[i]) {
      assert i < |sys.mbox| ==> MsgOk(sys, sys.mbox[i]);
    }
    forall v | 0 <= v < |sys.worker| ensures Credits(sys', v) == 1 {
      assert Credits(sys, v) == 1;
    }
  }

  /** Nothing mentions a task that does not exist yet. */
  lemma FreshTask(sys: Sys)
    requires Shape(sys) && InRange(sys)
    ensures var t := |sys.tasks|;
      && NewTask(t) !in sys.mbox && Return(t) !in sys.mbox && Wakeup(t) !in sys.mbox && t !in sys.ready
      && (forall w :: 0 <= w < |sys.wbox| ==> Assign(t) !in sys.wbox[w])
      && (forall w :: 0 <= w < |sys.worker| ==> !(HasTask(sys.worker[w]) && sys.worker[w].t == t))
  {
  }

  lemma TellWorkersInv(sys: Sys)
    requires Inv(sys)
    ensures Inv(sys.(wbox := Broadcast(sys.wbox), told := true))
  {
    var sys' := sys.(wbox := Broadcast(sys.wbox), told := true);
    forall u | 0 <= u < |sys.tasks| ensures TaskOk(sys', u) {
      TaskAt(sys, u);
      forall w | 0 <= w < |sys.wbox| ensures multiset(sys'.wbox[w])[Assign(u)] == multiset(sys.wbox[w])[Assign(u)] {
        assert multiset(sys'.wbox[w]) == multiset(sys.wbox[w]) + multiset{Stop};
      }
    }
    forall i | 0 <= i < |sys'.mbox| ensures MsgOk(sys', sys'.mbox[i]) {
      assert MsgOk(sys, sys.mbox[i]);
    }
    forall v | 0 <= v < |sys.worker| ensures Credits(sys', v) == 1 {
      assert Credits(sys, v) == 1;
      AssignsAppend(sys.wbox[v], Stop);
    }
  }

  lemma ApplyInv(sys: Sys, a: Action)
    requires Inv(sys) && Enabled(sys, a)
    ensures Inv(Apply(sys, a))
  {
    match a
    case Spawn(prio) => SpawnInv(sys, prio);
    case SendTerminate =>
      MailFrame(sys, Terminate);
      forall v | 0 <= v < |sys.worker| ensures Credits(Mail(sys, Terminate), v) == 1 {
        assert Credits(sys, v) == 1;
      }
    case SendWakeup(t) => SendWakeupInv(sys, t);
    case WorkerStep(w, choice) => StepWorkerInv(sys, w, choice);
    case MasterStep(updates, valid, prio) => StepMasterInv(sys, updates, valid, prio);
    case TellWorkers => TellWorkersInv(sys);
  }

  lemma {:induction false} RunInv(states: seq<Sys>, acts: seq<Action>, i: nat)
    requires IsRun(states, acts) && i < |states|
    ensures Inv(states[i])
  {
    if i == 0 {
      InitInv(states[0]);
    } else {
      RunInv(states, acts, i - 1);
      ApplyInv(states[i - 1], acts[i - 1]);
    }
  }

  ghost predicate Reachable(sys: Sys) {
    exists states, acts :: IsRun(states, acts) && sys in states
  }

  lemma ReachableInv(sys: Sys)
    requires Reachable(sys)
    ensures Inv(sys)
  {
    var states, acts :| IsRun(states, acts) && sys in states;
    var i :| 0 <= i < |states| && states[i] == sys;
    RunInv(states, acts, i);
  }
}
