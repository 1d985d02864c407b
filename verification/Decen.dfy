/**
  The decentralised worker (decen_worker.c, decen_task.c): every worker has a mailbox, a scheduler
  queue and a count of its tasks; tasks block, are woken, yield and migrate. One step is one whole
  message handler, or one mailbox operation with changes that only its worker can see.
 */
module Decen {
  type TaskId = nat
  type WorkerId = nat

  datatype TaskState = CREATED | READY | RUNNING | BLOCKED | ZOMBIE

  datatype Msg = Assign(t: TaskId) | Wakeup(t: TaskId) | Terminate

  datatype Option = None | Some(t: TaskId)

  /** tm_conf.mechanism */
  datatype Mechanism = NoMigration | Rand | WaitProp

  /** What a worker does next */
  datatype Pc =
    | LoopTop               // fetches a ready task
    | Waiting               // no task was ready: waits for a message
    | LoopFetch             // fetches the remaining messages, then tests whether to leave
    | Begin(t: TaskId)      // has switched to t: TaskStart is due
    | Run(t: TaskId)
    | WillBlock(t: TaskId)  // t has decided to block; whoever it waits for may wake it from now on
    | Drain(t: TaskId)      // the dispatcher, on the stack of t, fetches all messages
    | Pick(t: TaskId)       // the dispatcher, still on the stack of t, fetches a ready task
    | BackOnWorker          // a task has switched back to the worker loop
    | Uncount               // a migrated task has been sent off; num_tasks is still to be decreased
    | Ended

  /** workerctx_t; the order of the scheduler queue does not matter here. */
  datatype Worker = Worker(pc: Pc, num: int, terminate: bool, migrated: Option, mbox: seq<Msg>, queue: multiset<TaskId>)

  /** Where a task is: not started, in a message, in a queue, on a worker, blocked, about to migrate, gone. */
  datatype Place =
    | Unstarted
    | AssignMsg(w: WorkerId)
    | Queued(w: WorkerId)
    | On(w: WorkerId)
    | Blocked(w: WorkerId)
    | Slot(w: WorkerId)
    | Gone

  /** lpel_task_t; `owed`: the wakeup of the current blocking episode has not been issued; `place` is history. */
  datatype Task = Task(state: TaskState, wc: WorkerId, owed: bool, place: Place)

  datatype Sys = Sys(mech: Mechanism, workers: seq<Worker>, tasks: seq<Task>)

  /** What a running task does; target is the answer of LpelPickTargetWorker. */
  datatype Choice =
    | Block
    | Yield(target: int)
    | CheckMigrate(target: int)
    | Exit
    | Wake(u: TaskId, target: int)

  datatype Action =
    | Create(w: WorkerId)
    | Start(t: TaskId)
    | WakeFromOutside(u: TaskId)
    | SendTerminate(w: WorkerId)
    | Step(w: WorkerId, choice: Choice, next: TaskId)   // next: which ready task the scheduler picks
    | WakeLocal(w: WorkerId, u: TaskId, target: int)    // LpelWorkerTaskWakeupLocal, between tasks

  // ---------------------------------------------------------------------------
  // Operations

  function SetTask(sys: Sys, t: TaskId, x: Task): Sys
    requires t < |sys.tasks|
  {
    sys.(tasks := sys.tasks[t := x])
  }

  function SetWorker(sys: Sys, w: WorkerId, k: Worker): Sys
    requires w < |sys.workers|
  {
    sys.(workers := sys.workers[w := k])
  }

  function Goto(sys: Sys, w: WorkerId, pc: Pc): Sys
    requires w < |sys.workers|
  {
    SetWorker(sys, w, sys.workers[w].(pc := pc))
  }

  function Post(sys: Sys, w: WorkerId, m: Msg): Sys
    requires w < |sys.workers|
  {
    SetWorker(sys, w, sys.workers[w].(mbox := sys.workers[w].mbox + [m]))
  }

  /** LpelSchedMakeReady */
  function MakeReady(sys: Sys, w: WorkerId, t: TaskId): Sys
    requires w < |sys.workers| && t < |sys.tasks|
  {
    SetTask(SetWorker(sys, w, sys.workers[w].(queue := sys.workers[w].queue + multiset{t})), t, sys.tasks[t].(state := READY, place := Queued(w)))
  }

  /** The guard under which LpelWorkerMakeTaskReady on w sends a woken task to worker target */
  predicate Migrates(sys: Sys, w: WorkerId, target: int) { sys.mech == WaitProp && target > 0 && target != w }

  /** LpelWorkerMakeTaskReady, after the state has been set to READY */
  function MakeTaskReady(sys: Sys, w: WorkerId, t: TaskId, target: int): Sys
    requires w < |sys.workers| && t < |sys.tasks| && target < |sys.workers|
  {
    if Migrates(sys, w, target) then
      var sys1 := SetWorker(sys, w, sys.workers[w].(num := sys.workers[w].num - 1));
      Post(SetTask(sys1, t, sys.tasks[t].(state := READY, wc := target, place := AssignMsg(target))), target, Assign(t))
    else MakeReady(sys, w, t)
  }

  /** LpelWorkerTaskWakeup by a task on worker w */
  function WakeTask(sys: Sys, w: WorkerId, u: TaskId, target: int): Sys
    requires w < |sys.workers| && u < |sys.tasks| && target < |sys.workers| && sys.tasks[u].wc < |sys.workers|
  {
    if sys.tasks[u].wc == w then MakeTaskReady(SetTask(sys, u, sys.tasks[u].(owed := false)), w, u, target)
    else SendWakeup(sys, u)
  }

  function SendWakeup(sys: Sys, u: TaskId): Sys
    requires u < |sys.tasks| && sys.tasks[u].wc < |sys.workers|
  {
    Post(SetTask(sys, u, sys.tasks[u].(owed := false)), sys.tasks[u].wc, Wakeup(u))
  }

  /** ProcessMessage on the oldest message */
  function Process(sys: Sys, w: WorkerId, target: int): Sys
    requires w < |sys.workers| && sys.workers[w].mbox != [] && target < |sys.workers|
    requires MsgOk(sys, sys.workers[w].mbox[0])
  {
    var k := sys.workers[w];
    var sys1 := SetWorker(sys, w, k.(mbox := k.mbox[1..]));
    match k.mbox[0]
    case Wakeup(t) => MakeTaskReady(sys1, w, t, target)
    case Assign(t) =>
      MakeReady(SetWorker(sys, w, k.(mbox := k.mbox[1..], num := k.num + 1)), w, t)
    case Terminate => SetWorker(sys, w, k.(mbox := k.mbox[1..], terminate := true))
  }

  predicate MsgOk(sys: Sys, m: Msg) { !m.Terminate? ==> m.t < |sys.tasks| }

  /** LpelWorkerSelfTaskMigrate to another worker */
  function SelfMigrate(sys: Sys, w: WorkerId, t: TaskId, target: WorkerId): Sys
    requires w < |sys.workers| && t < |sys.tasks|
  {
    SetTask(SetWorker(sys, w, sys.workers[w].(pc := BackOnWorker, migrated := Some(t))),
            t, sys.tasks[t].(state := READY, wc := target, place := Slot(w)))
  }

  /** LpelWorkerSelfTaskExit */
  function ExitTask(sys: Sys, w: WorkerId, t: TaskId): Sys
    requires w < |sys.workers| && t < |sys.tasks|
  {
    SetTask(SetWorker(sys, w, sys.workers[w].(pc := Drain(t), num := sys.workers[w].num - 1)),
            t, sys.tasks[t].(state := ZOMBIE, place := Gone))
  }

  /** LpelTaskYield without migration */
  function YieldTask(sys: Sys, w: WorkerId, t: TaskId): Sys
    requires w < |sys.workers| && t < |sys.tasks|
  {
    Goto(MakeReady(sys, w, t), w, Drain(t))
  }

  function RunStep(sys: Sys, w: WorkerId, t: TaskId, choice: Choice): Sys
    requires w < |sys.workers| && t < |sys.tasks| && ChoiceOk(sys, choice)
  {
    match choice
    case Block => Goto(SetTask(sys, t, sys.tasks[t].(owed := true)), w, WillBlock(t))
    case Yield(target) =>
      if sys.mech == WaitProp && target > 0 then
        if target == w then sys else SelfMigrate(sys, w, t, target)
      else YieldTask(sys, w, t)
    case CheckMigrate(target) =>
      if sys.mech == Rand && target >= 0 && target != w then SelfMigrate(sys, w, t, target) else sys
    case Exit => ExitTask(sys, w, t)
    case Wake(u, target) => WakeTask(sys, w, u, target)
  }

  predicate ChoiceOk(sys: Sys, choice: Choice) {
    match choice
    case Yield(target) => target < |sys.workers|
    case CheckMigrate(target) => target < |sys.workers|
    case Wake(u, target) =>
      target < |sys.workers| && u < |sys.tasks| && sys.tasks[u].owed && sys.tasks[u].wc < |sys.workers|
    case _ => true
  }

  /** The scheduler's choice: `next` if any task is ready. */
  predicate Picks(k: Worker, next: TaskId, n: nat) { k.queue == multiset{} || (next in k.queue && next < n) }

  function Fetch(sys: Sys, w: WorkerId, next: TaskId, otherwise: Pc): Sys
    requires w < |sys.workers| && Picks(sys.workers[w], next, |sys.tasks|)
  {
    var k := sys.workers[w];
    if k.queue == multiset{} then Goto(sys, w, otherwise)
    else SetTask(SetWorker(sys, w, k.(queue := k.queue - multiset{next}, pc := Begin(next))), next, sys.tasks[next].(place := On(w)))
  }

  /** The worker loop sends off the migrated task. */
  function SendOff(sys: Sys, w: WorkerId, t: TaskId): Sys
    requires w < |sys.workers| && t < |sys.tasks| && sys.tasks[t].wc < |sys.workers|
  {
    Post(SetTask(SetWorker(sys, w, sys.workers[w].(pc := Uncount, migrated := None)), t, sys.tasks[t].(place := AssignMsg(sys.tasks[t].wc))),
         sys.tasks[t].wc, Assign(t))
  }

  function StepWorker(sys: Sys, w: WorkerId, choice: Choice, next: TaskId): Sys
    requires w < |sys.workers| && StepOk(sys, w, choice, next)
  {
    var k := sys.workers[w];
    match k.pc
    case LoopTop => Fetch(sys, w, next, Waiting)
    case Waiting => Goto(Process(sys, w, Target(choice)), w, LoopFetch)
    case LoopFetch =>
      if k.mbox != [] then Process(sys, w, Target(choice))
      else Goto(sys, w, if k.num == 0 && k.terminate then Ended else LoopTop)
    case Begin(t) => Goto(SetTask(sys, t, sys.tasks[t].(state := RUNNING)), w, Run(t))
    case Run(t) => RunStep(sys, w, t, choice)
    case WillBlock(t) => Goto(SetTask(sys, t, sys.tasks[t].(state := BLOCKED, place := Blocked(w))), w, Drain(t))
    case Drain(t) => if k.mbox != [] then Process(sys, w, Target(choice)) else Goto(sys, w, Pick(t))
    case Pick(_) => Fetch(sys, w, next, BackOnWorker)
    case BackOnWorker =>
      if k.migrated == None then Goto(sys, w, LoopFetch)
      else
        SendOff(sys, w, k.migrated.t)
    case Uncount => SetWorker(sys, w, k.(pc := LoopFetch, num := k.num - 1))
    case Ended => sys
  }

  /** The target a message handler may pick, if a task is woken */
  function Target(choice: Choice): int {
    match choice
    case Yield(target) => target
    case _ => -1
  }

  predicate HasTask(pc: Pc) { pc.Begin? || pc.Run? || pc.WillBlock? }

  /** The worker's thread runs on the stack of task pc.t. */
  predicate OnStack(pc: Pc) { HasTask(pc) || pc.Drain? || pc.Pick? }

  predicate StepOk(sys: Sys, w: WorkerId, choice: Choice, next: TaskId)
    requires w < |sys.workers|
  {
    var k := sys.workers[w];
    && !k.pc.Ended? && ChoiceOk(sys, choice)
    && (HasTask(k.pc) ==> k.pc.t < |sys.tasks|)
    && (k.pc.Waiting? ==> k.mbox != [])
    && (k.mbox != [] ==> MsgOk(sys, k.mbox[0]))
    && (k.migrated.Some? ==> k.migrated.t < |sys.tasks| && sys.tasks[k.migrated.t].wc < |sys.workers|)
    && (k.pc.LoopTop? || k.pc.Pick? ==> Picks(k, next, |sys.tasks|))
  }

  predicate Enabled(sys: Sys, a: Action) {
    match a
    case Create(w) => w < |sys.workers|
    case Start(t) => t < |sys.tasks| && sys.tasks[t].place == Unstarted && sys.tasks[t].wc < |sys.workers|
    case WakeFromOutside(u) => u < |sys.tasks| && sys.tasks[u].owed && sys.tasks[u].wc < |sys.workers|
    case SendTerminate(w) => w < |sys.workers|
    case Step(w, choice, next) => w < |sys.workers| && StepOk(sys, w, choice, next)
    case WakeLocal(w, u, target) =>
      && w < |sys.workers| && u < |sys.tasks| && target < |sys.workers|
      && sys.tasks[u].owed && sys.tasks[u].wc == w && (sys.workers[w].pc.LoopTop? || sys.workers[w].pc.Pick?)
  }

  function Apply(sys: Sys, a: Action): Sys
    requires Enabled(sys, a)
  {
    match a
    case Create(w) => sys.(tasks := sys.tasks + [Task(CREATED, w, false, Unstarted)])
    case Start(t) => Post(SetTask(sys, t, sys.tasks[t].(place := AssignMsg(sys.tasks[t].wc))), sys.tasks[t].wc, Assign(t))
    case WakeFromOutside(u) => SendWakeup(sys, u)
    case SendTerminate(w) => Post(sys, w, Terminate)
    case Step(w, choice, next) => StepWorker(sys, w, choice, next)
    case WakeLocal(w, u, target) => WakeTask(sys, w, u, target)
  }

  function InitWorker(): Worker { Worker(LoopTop, 0, false, None, [], multiset{}) }

  ghost predicate Init(sys: Sys) {
    sys.tasks == [] && forall w :: 0 <= w < |sys.workers| ==> sys.workers[w] == InitWorker()
  }

  /** Every action can be taken when its turn comes. */
  ghost predicate Legal(sys: Sys, acts: seq<Action>)
    decreases |acts|
  {
    acts == [] || (Enabled(sys, acts[0]) && Legal(Apply(sys, acts[0]), acts[1..]))
  }

  ghost function After(sys: Sys, acts: seq<Action>): Sys
    requires Legal(sys, acts)
    decreases |acts|
  {
    if acts == [] then sys else After(Apply(sys, acts[0]), acts[1..])
  }

  /** sys' is the state after the run acts from the initial state sys. */
  ghost predicate IsRun(sys: Sys, acts: seq<Action>, sys': Sys) {
    Init(sys) && Legal(sys, acts) && After(sys, acts) == sys'
  }

  ghost predicate Reachable(sys: Sys) {
    exists s0, acts :: IsRun(s0, acts, sys)
  }

  // ---------------------------------------------------------------------------
  // The invariant

  function Bit(b: bool): nat { if b then 1 else 0 }

  predicate Holds(pc: Pc, t: TaskId) { HasTask(pc) && pc.t == t }

  /** t, with record x, waits for a wakeup on worker v, whose context is k. */
  predicate InEpisode(t: TaskId, x: Task, v: WorkerId, k: Worker) {
    x.place == Blocked(v) || (x.place == On(v) && k.pc == WillBlock(t))
  }

  /** Worker v, with context k, has t exactly where its place says, and every wakeup of t is accounted for. */
  ghost predicate At(t: TaskId, x: Task, v: WorkerId, k: Worker) {
    && multiset(k.mbox)[Assign(t)] == Bit(x.place == AssignMsg(v))
    && k.queue[t] == Bit(x.place == Queued(v))
    && (Holds(k.pc, t) <==> x.place == On(v))
    && (k.migrated == Some(t) <==> x.place == Slot(v))
    && multiset(k.mbox)[Wakeup(t)] + Bit(x.wc == v && x.owed) == Bit(x.wc == v && InEpisode(t, x, v, k))
    && (x.place == On(v) ==> x.state == if k.pc.Begin? then READY else RUNNING)
  }

  /** State and worker context agree with the place. */
  predicate StateOk(x: Task, n: nat) {
    && x.wc < n
    && (match x.place
        case Unstarted => x.state == CREATED
        case AssignMsg(w) => x.state in {CREATED, READY} && w == x.wc
        case Queued(w) => x.state == READY && w == x.wc
        case On(w) => w == x.wc
        case Blocked(w) => x.state == BLOCKED && w == x.wc
        case Slot(w) => x.state == READY && w < n && w != x.wc
        case Gone => x.state == ZOMBIE)
  }

  ghost predicate TaskOk(t: TaskId, x: Task, workers: seq<Worker>) {
    StateOk(x, |workers|) && forall v :: 0 <= v < |workers| ==> At(t, x, v, workers[v])
  }

  /** Live tasks located at w: in its queue, on it, blocked on it, or about to leave it. */
  predicate IsLocated(x: Task, w: WorkerId) { x.place in {Queued(w), On(w), Blocked(w), Slot(w)} }

  ghost function Located(tasks: seq<Task>, w: WorkerId): set<TaskId> {
    set t: TaskId | t < |tasks| && IsLocated(tasks[t], w)
  }

  /** The count, the slot and the names a worker mentions */
  ghost predicate WorkerOk(w: WorkerId, k: Worker, tasks: seq<Task>) {
    && k.num == |Located(tasks, w)| + Bit(k.pc.Uncount?)
    && (k.migrated.Some? ==> k.pc.BackOnWorker?)
    && Names(k, |tasks|)
    && EndedOk(k)
  }

  /** A worker leaves its loop with no task and after a terminate message. */
  predicate EndedOk(k: Worker) { k.pc.Ended? ==> k.num == 0 && k.terminate }

  ghost predicate Names(k: Worker, n: nat) {
    && (forall i :: 0 <= i < |k.mbox| && !k.mbox[i].Terminate? ==> k.mbox[i].t < n)
    && (forall t :: t in k.queue ==> t < n)
    && (OnStack(k.pc) ==> k.pc.t < n)
    && (k.migrated.Some? ==> k.migrated.t < n)
  }

  ghost predicate Inv(sys: Sys) {
    && (forall t: TaskId :: t < |sys.tasks| ==> TaskOk(t, sys.tasks[t], sys.workers))
    && (forall w: WorkerId :: w < |sys.workers| ==> WorkerOk(w, sys.workers[w], sys.tasks))
  }

  lemma TaskAt(sys: Sys, t: TaskId)
    requires Inv(sys) && t < |sys.tasks|
    ensures TaskOk(t, sys.tasks[t], sys.workers)
  {
  }

  lemma WorkerAt(sys: Sys, w: WorkerId)
    requires Inv(sys) && w < |sys.workers|
    ensures WorkerOk(w, sys.workers[w], sys.tasks)
  {
  }

  // ---------------------------------------------------------------------------
  // One task moves

  /** k and k' say the same about task u. */
  ghost predicate Same(u: TaskId, k: Worker, k': Worker) {
    && multiset(k'.mbox)[Assign(u)] == multiset(k.mbox)[Assign(u)]
    && multiset(k'.mbox)[Wakeup(u)] == multiset(k.mbox)[Wakeup(u)]
    && k'.queue[u] == k.queue[u]
    && Holds(k'.pc, u) == Holds(k.pc, u) && (Holds(k.pc, u) ==> k'.pc == k.pc)
    && (k'.migrated == Some(u)) == (k.migrated == Some(u))
  }

  lemma SameKeeps(u: TaskId, x: Task, v: WorkerId, k: Worker, k': Worker)
    requires At(u, x, v, k) && Same(u, k, k')
    ensures At(u, x, v, k')
  {
  }

  lemma LocatedMove(tasks: seq<Task>, t: TaskId, x: Task, w: WorkerId)
    requires t < |tasks|
    ensures |Located(tasks[t := x], w)| == |Located(tasks, w)| - Bit(IsLocated(tasks[t], w)) + Bit(IsLocated(x, w))
  {
    var a, b := Located(tasks, w), Located(tasks[t := x], w);
    assert a - {t} == b - {t};
    assert |a - {t}| == |a| - Bit(t in a);
    assert |b - {t}| == |b| - Bit(t in b);
  }

  /** What a step of one task t to record x must keep at worker w */
  ghost predicate Fits(sys: Sys, t: TaskId, x: Task, w: WorkerId, k': Worker)
    requires t < |sys.tasks| && w < |sys.workers|
  {
    var k := sys.workers[w];
    && (forall u: TaskId :: u != t && u < |sys.tasks| ==> Same(u, k, k'))
    && At(t, x, w, k')
    && k'.num - Bit(k'.pc.Uncount?) - Bit(IsLocated(x, w)) == k.num - Bit(k.pc.Uncount?) - Bit(IsLocated(sys.tasks[t], w))
    && (k'.migrated.Some? ==> k'.pc.BackOnWorker?)
    && Names(k', |sys.tasks|)
    && EndedOk(k')
  }

  lemma MoveInv(sys: Sys, t: TaskId, x: Task, workers': seq<Worker>)
    requires Inv(sys) && t < |sys.tasks| && |workers'| == |sys.workers| && StateOk(x, |sys.workers|)
    requires forall w: WorkerId :: w < |sys.workers| ==> Fits(sys, t, x, w, workers'[w])
    ensures Inv(sys.(workers := workers', tasks := sys.tasks[t := x]))
  {
    var sys' := sys.(workers := workers', tasks := sys.tasks[t := x]);
    forall u: TaskId | u < |sys.tasks| ensures TaskOk(u, sys'.tasks[u], workers') {
      TaskAt(sys, u);
      forall v | 0 <= v < |workers'| ensures At(u, sys'.tasks[u], v, workers'[v]) {
        assert Fits(sys, t, x, v, workers'[v]);
        if u != t {
          SameKeeps(u, sys.tasks[u], v, sys.workers[v], workers'[v]);
        }
      }
    }
    forall w: WorkerId | w < |workers'| ensures WorkerOk(w, workers'[w], sys'.tasks) {
      assert Fits(sys, t, x, w, workers'[w]);
      WorkerAt(sys, w);
      LocatedMove(sys.tasks, t, x, w);
    }
  }

  /** x has nothing to do with worker v. */
  predicate Away(x: Task, v: WorkerId) {
    x.place !in {AssignMsg(v), Queued(v), On(v), Blocked(v), Slot(v)} && !(x.wc == v && x.owed)
  }

  /** A worker that t neither leaves nor enters */
  lemma Untouched(sys: Sys, t: TaskId, x: Task, v: WorkerId)
    requires Inv(sys) && t < |sys.tasks| && v < |sys.workers| && Away(sys.tasks[t], v) && Away(x, v)
    ensures Fits(sys, t, x, v, sys.workers[v])
  {
    WorkerAt(sys, v);
    TaskAt(sys, t);
  }

  /** Only worker w changes. */
  lemma MoveAt(sys: Sys, t: TaskId, x: Task, w: WorkerId, k': Worker)
    requires Inv(sys) && t < |sys.tasks| && w < |sys.workers| && StateOk(x, |sys.workers|) && Fits(sys, t, x, w, k')
    requires forall v: WorkerId :: v < |sys.workers| && v != w ==> Away(sys.tasks[t], v) && Away(x, v)
    ensures Inv(SetTask(SetWorker(sys, w, k'), t, x))
  {
    var workers' := sys.workers[w := k'];
    forall v: WorkerId | v < |sys.workers| ensures Fits(sys, t, x, v, workers'[v]) {
      if v != w {
        Untouched(sys, t, x, v);
      }
    }
    MoveInv(sys, t, x, workers');
  }

  /** t goes from worker w to worker y. */
  lemma MoveBetween(sys: Sys, t: TaskId, x: Task, w: WorkerId, k: Worker, y: WorkerId, l: Worker)
    requires Inv(sys) && t < |sys.tasks| && w < |sys.workers| && y < |sys.workers| && w != y && StateOk(x, |sys.workers|)
    requires Fits(sys, t, x, w, k) && Fits(sys, t, x, y, l)
    requires forall v: WorkerId :: v < |sys.workers| && v != w && v != y ==> Away(sys.tasks[t], v) && Away(x, v)
    ensures Inv(sys.(workers := sys.workers[w := k][y := l], tasks := sys.tasks[t := x]))
  {
    var workers' := sys.workers[w := k][y := l];
    forall v: WorkerId | v < |sys.workers| ensures Fits(sys, t, x, v, workers'[v]) {
      if v != w && v != y {
        Untouched(sys, t, x, v);
      }
    }
    MoveInv(sys, t, x, workers');
  }

  /** A step that concerns no task */
  lemma WorkerInv(sys: Sys, w: WorkerId, k': Worker)
    requires Inv(sys) && w < |sys.workers|
    requires forall u: TaskId :: u < |sys.tasks| ==> Same(u, sys.workers[w], k')
    requires k'.num - Bit(k'.pc.Uncount?) == sys.workers[w].num - Bit(sys.workers[w].pc.Uncount?)
    requires k'.migrated.Some? ==> k'.pc.BackOnWorker?
    requires Names(k', |sys.tasks|) && EndedOk(k')
    ensures Inv(SetWorker(sys, w, k'))
  {
    var workers' := sys.workers[w := k'];
    forall u: TaskId | u < |sys.tasks| ensures TaskOk(u, sys.tasks[u], workers') {
      TaskAt(sys, u);
      SameKeeps(u, sys.tasks[u], w, sys.workers[w], k');
    }
    forall v: WorkerId | v < |workers'| ensures WorkerOk(v, workers'[v], sys.tasks) {
      WorkerAt(sys, v);
    }
  }

  lemma GotoInv(sys: Sys, w: WorkerId, pc: Pc)
    requires Inv(sys) && w < |sys.workers|
    requires var k := sys.workers[w];
      !HasTask(k.pc) && !HasTask(pc) && !k.pc.Uncount? && !pc.Uncount? && k.migrated == None && EndedOk(k.(pc := pc))
    requires OnStack(pc) ==> pc.t < |sys.tasks|
    ensures Inv(Goto(sys, w, pc))
  {
    WorkerAt(sys, w);
    WorkerInv(sys, w, sys.workers[w].(pc := pc));
  }

  // Mailboxes

  lemma PostSame(k: Worker, m: Msg, n: nat)
    requires Names(k, n) && (!m.Terminate? ==> m.t < n)
    ensures multiset(k.mbox + [m]) == multiset(k.mbox) + multiset{m}
    ensures Names(k.(mbox := k.mbox + [m]), n)
  {
  }

  lemma TakeSame(k: Worker, n: nat)
    requires Names(k, n) && k.mbox != []
    ensures multiset(k.mbox) == multiset{k.mbox[0]} + multiset(k.mbox[1..])
    ensures Names(k.(mbox := k.mbox[1..]), n) && (!k.mbox[0].Terminate? ==> k.mbox[0].t < n)
  {
    assert k.mbox == [k.mbox[0]] + k.mbox[1..];
  }

  // ---------------------------------------------------------------------------
  // The steps

  lemma StartInv(sys: Sys, t: TaskId)
    requires Inv(sys) && Enabled(sys, Start(t))
    ensures Inv(Apply(sys, Start(t)))
  {
    TaskAt(sys, t);
    var x := sys.tasks[t];
    WorkerAt(sys, x.wc);
    var k := sys.workers[x.wc];
    PostSame(k, Assign(t), |sys.tasks|);
    MoveAt(sys, t, x.(place := AssignMsg(x.wc)), x.wc, k.(mbox := k.mbox + [Assign(t)]));
  }

  lemma SendWakeupInv(sys: Sys, u: TaskId)
    requires Inv(sys) && u < |sys.tasks| && sys.tasks[u].owed && sys.tasks[u].wc < |sys.workers|
    ensures Inv(SendWakeup(sys, u))
  {
    TaskAt(sys, u);
    var x := sys.tasks[u];
    WorkerAt(sys, x.wc);
    var k := sys.workers[x.wc];
    PostSame(k, Wakeup(u), |sys.tasks|);
    assert At(u, x, x.wc, k);
    MoveAt(sys, u, x.(owed := false), x.wc, k.(mbox := k.mbox + [Wakeup(u)]));
  }

  lemma SendTerminateInv(sys: Sys, w: WorkerId)
    requires Inv(sys) && w < |sys.workers|
    ensures Inv(Post(sys, w, Terminate))
  {
    WorkerAt(sys, w);
    var k := sys.workers[w];
    PostSame(k, Terminate, |sys.tasks|);
    WorkerInv(sys, w, k.(mbox := k.mbox + [Terminate]));
  }

  lemma QueueNames(k: Worker, t: TaskId, n: nat)
    requires Names(k, n) && t < n
    ensures Names(k.(queue := k.queue + multiset{t}), n)
  {
  }

  /** A blocked task on w, woken by a message or directly; k is w's context without the message. */
  ghost predicate Woken(sys: Sys, w: WorkerId, t: TaskId, k: Worker)
    requires w < |sys.workers| && t < |sys.tasks|
  {
    && sys.tasks[t].place == Blocked(w) && Names(k, |sys.tasks|)
    && k == sys.workers[w].(mbox := k.mbox)
    && multiset(k.mbox)[Wakeup(t)] == 0
    && (forall u: TaskId :: u != t ==> multiset(k.mbox)[Wakeup(u)] == multiset(sys.workers[w].mbox)[Wakeup(u)])
    && (forall u: TaskId :: multiset(k.mbox)[Assign(u)] == multiset(sys.workers[w].mbox)[Assign(u)])
  }

  function Rewoken(x: Task, wc: WorkerId, p: Place): Task { x.(state := READY, owed := false, wc := wc, place := p) }

  lemma WokenQueued(sys: Sys, w: WorkerId, t: TaskId, k: Worker)
    requires Inv(sys) && w < |sys.workers| && t < |sys.tasks| && Woken(sys, w, t, k)
    ensures Inv(SetTask(SetWorker(sys, w, k.(queue := k.queue + multiset{t})), t, Rewoken(sys.tasks[t], w, Queued(w))))
  {
    TaskAt(sys, t);
    WorkerAt(sys, w);
    assert At(t, sys.tasks[t], w, sys.workers[w]);
    QueueNames(k, t, |sys.tasks|);
    MoveAt(sys, t, Rewoken(sys.tasks[t], w, Queued(w)), w, k.(queue := k.queue + multiset{t}));
  }

  /** The count of a worker with a task is positive, so it has not ended. */
  lemma LocatedCounted(sys: Sys, w: WorkerId, t: TaskId)
    requires Inv(sys) && w < |sys.workers| && t < |sys.tasks| && IsLocated(sys.tasks[t], w)
    ensures sys.workers[w].num > 0 && !sys.workers[w].pc.Ended?
  {
    WorkerAt(sys, w);
    assert t in Located(sys.tasks, w);
  }

  lemma WokenLeaves(sys: Sys, w: WorkerId, t: TaskId, k: Worker, x: Task)
    requires Inv(sys) && w < |sys.workers| && t < |sys.tasks| && Woken(sys, w, t, k)
    requires x.place.AssignMsg? && x.place.w != w && x.wc != w
    ensures Fits(sys, t, x, w, k.(num := k.num - 1))
  {
    LocatedCounted(sys, w, t);
    TaskAt(sys, t);
    WorkerAt(sys, w);
    assert At(t, sys.tasks[t], w, sys.workers[w]);
  }

  /** An assign message for t, whose place becomes that, arrives at another worker y. */
  lemma Arrives(sys: Sys, t: TaskId, x: Task, y: WorkerId)
    requires Inv(sys) && y < |sys.workers| && t < |sys.tasks| && Away(sys.tasks[t], y)
    requires x.place == AssignMsg(y) && !x.owed
    ensures var l := sys.workers[y]; Fits(sys, t, x, y, l.(mbox := l.mbox + [Assign(t)]))
  {
    TaskAt(sys, t);
    WorkerAt(sys, y);
    assert At(t, sys.tasks[t], y, sys.workers[y]);
    PostSame(sys.workers[y], Assign(t), |sys.tasks|);
  }

  lemma WokenMigrates(sys: Sys, w: WorkerId, t: TaskId, k: Worker, target: WorkerId)
    requires Inv(sys) && w < |sys.workers| && t < |sys.tasks| && Woken(sys, w, t, k) && target < |sys.workers| && target != w
    ensures var l := sys.workers[target];
      Inv(sys.(workers := sys.workers[w := k.(num := k.num - 1)][target := l.(mbox := l.mbox + [Assign(t)])],
               tasks := sys.tasks[t := Rewoken(sys.tasks[t], target, AssignMsg(target))]))
  {
    TaskAt(sys, t);
    var x, l := Rewoken(sys.tasks[t], target, AssignMsg(target)), sys.workers[target];
    WokenLeaves(sys, w, t, k, x);
    Arrives(sys, t, x, target);
    MoveBetween(sys, t, x, w, k.(num := k.num - 1), target, l.(mbox := l.mbox + [Assign(t)]));
  }

  /** LpelWorkerMakeTaskReady on a blocked task whose wakeup has been used up */
  lemma MakeTaskReadyInv(sys: Sys, sys1: Sys, w: WorkerId, t: TaskId, target: int)
    requires Inv(sys) && w < |sys.workers| && t < |sys.tasks| && target < |sys.workers|
    requires |sys1.workers| == |sys.workers| && |sys1.tasks| == |sys.tasks| && Woken(sys, w, t, sys1.workers[w])
    requires sys1 == SetTask(SetWorker(sys, w, sys1.workers[w]), t, sys.tasks[t].(owed := false))
    ensures Inv(MakeTaskReady(sys1, w, t, target))
  {
    TaskAt(sys, t);
    var k, x := sys1.workers[w], sys.tasks[t];
    if Migrates(sys, w, target) {
      WokenMigrates(sys, w, t, k, target);
      var l := sys.workers[target];
      var sys' := MakeTaskReady(sys1, w, t, target);
      assert sys'.workers == sys.workers[w := k.(num := k.num - 1)][target := l.(mbox := l.mbox + [Assign(t)])];
      assert sys'.tasks == sys.tasks[t := Rewoken(x, target, AssignMsg(target))];
    } else {
      WokenQueued(sys, w, t, k);
      var sys' := MakeTaskReady(sys1, w, t, target);
      assert sys'.workers == sys.workers[w := k.(queue := k.queue + multiset{t})];
      assert sys'.tasks == sys.tasks[t := Rewoken(x, w, Queued(w))];
    }
  }

  /** A task that is owed a wakeup and does not run is blocked. */
  lemma OwedIsBlocked(sys: Sys, w: WorkerId, u: TaskId)
    requires Inv(sys) && u < |sys.tasks| && sys.tasks[u].owed && sys.tasks[u].wc == w && w < |sys.workers|
    requires !Holds(sys.workers[w].pc, u)
    ensures sys.tasks[u].place == Blocked(w) && sys.tasks[u].state == BLOCKED && Woken(sys, w, u, sys.workers[w])
  {
    TaskAt(sys, u);
    WorkerAt(sys, w);
    assert At(u, sys.tasks[u], w, sys.workers[w]);
  }

  lemma WakeTaskInv(sys: Sys, w: WorkerId, u: TaskId, target: int)
    requires Inv(sys) && w < |sys.workers| && u < |sys.tasks| && target < |sys.workers|
    requires sys.tasks[u].owed && sys.tasks[u].wc < |sys.workers| && (sys.tasks[u].wc == w ==> !Holds(sys.workers[w].pc, u))
    ensures Inv(WakeTask(sys, w, u, target))
  {
    if sys.tasks[u].wc == w {
      OwedIsBlocked(sys, w, u);
      var sys1 := SetTask(sys, u, sys.tasks[u].(owed := false));
      assert sys1.workers == sys.workers[w := sys.workers[w]];
      MakeTaskReadyInv(sys, sys1, w, u, target);
    } else {
      SendWakeupInv(sys, u);
    }
  }

  // Messages

  lemma WakeupMsg(sys: Sys, w: WorkerId, t: TaskId)
    requires Inv(sys) && w < |sys.workers| && sys.workers[w].mbox != [] && sys.workers[w].mbox[0] == Wakeup(t)
    requires !HasTask(sys.workers[w].pc) && t < |sys.tasks|
    ensures var k := sys.workers[w]; Woken(sys, w, t, k.(mbox := k.mbox[1..])) && sys.tasks[t].state == BLOCKED && !sys.tasks[t].owed
  {
    WorkerAt(sys, w);
    TaskAt(sys, t);
    TakeSame(sys.workers[w], |sys.tasks|);
    assert At(t, sys.tasks[t], w, sys.workers[w]);
  }

  /** w without its first message, an assignment of t, and with t queued and counted */
  function Assigned(k: Worker, t: TaskId): Worker
    requires k.mbox != []
  {
    k.(mbox := k.mbox[1..], num := k.num + 1, queue := k.queue + multiset{t})
  }

  lemma AssignMsg1(sys: Sys, w: WorkerId, t: TaskId)
    requires Inv(sys) && w < |sys.workers| && sys.workers[w].mbox != [] && sys.workers[w].mbox[0] == Assign(t)
    requires t < |sys.tasks|
    ensures sys.tasks[t].place == AssignMsg(w) && sys.tasks[t].wc == w && sys.tasks[t].state in {CREATED, READY} && !sys.tasks[t].owed
  {
    TaskAt(sys, t);
    assert At(t, sys.tasks[t], w, sys.workers[w]);
  }

  lemma AssignFits(sys: Sys, w: WorkerId, t: TaskId)
    requires Inv(sys) && w < |sys.workers| && sys.workers[w].mbox != [] && sys.workers[w].mbox[0] == Assign(t)
    requires !sys.workers[w].pc.Ended? && t < |sys.tasks|
    ensures Fits(sys, t, sys.tasks[t].(state := READY, place := Queued(w)), w, Assigned(sys.workers[w], t))
  {
    var k := sys.workers[w];
    AssignMsg1(sys, w, t);
    TaskAt(sys, t);
    assert At(t, sys.tasks[t], w, k);
    WorkerAt(sys, w);
    TakeSame(k, |sys.tasks|);
    QueueNames(k.(mbox := k.mbox[1..]), t, |sys.tasks|);
  }

  lemma AssignMsgInv(sys: Sys, w: WorkerId, t: TaskId)
    requires Inv(sys) && w < |sys.workers| && sys.workers[w].mbox != [] && sys.workers[w].mbox[0] == Assign(t)
    requires !sys.workers[w].pc.Ended? && t < |sys.tasks|
    ensures Inv(SetTask(SetWorker(sys, w, Assigned(sys.workers[w], t)), t, sys.tasks[t].(state := READY, place := Queued(w))))
  {
    AssignMsg1(sys, w, t);
    AssignFits(sys, w, t);
    MoveAt(sys, t, sys.tasks[t].(state := READY, place := Queued(w)), w, Assigned(sys.workers[w], t));
  }

  lemma AssignIs(sys: Sys, w: WorkerId, t: TaskId, target: int)
    requires w < |sys.workers| && sys.workers[w].mbox != [] && sys.workers[w].mbox[0] == Assign(t)
    requires t < |sys.tasks| && target < |sys.workers|
    ensures Process(sys, w, target)
         == SetTask(SetWorker(sys, w, Assigned(sys.workers[w], t)), t, sys.tasks[t].(state := READY, place := Queued(w)))
  {
    var k := sys.workers[w];
    var k1, k2 := k.(mbox := k.mbox[1..], num := k.num + 1), Assigned(k, t);
    assert sys.workers[w := k1][w := k2] == sys.workers[w := k2];
  }

  lemma WakeupMsgInv(sys: Sys, w: WorkerId, t: TaskId, target: int)
    requires Inv(sys) && w < |sys.workers| && sys.workers[w].mbox != [] && sys.workers[w].mbox[0] == Wakeup(t)
    requires !HasTask(sys.workers[w].pc) && t < |sys.tasks| && target < |sys.workers|
    ensures var k := sys.workers[w]; Inv(MakeTaskReady(SetWorker(sys, w, k.(mbox := k.mbox[1..])), w, t, target))
  {
    var k := sys.workers[w];
    WakeupMsg(sys, w, t);
    var sys1 := SetWorker(sys, w, k.(mbox := k.mbox[1..]));
    assert sys1.tasks == sys.tasks[t := sys.tasks[t].(owed := false)];
    MakeTaskReadyInv(sys, sys1, w, t, target);
  }

  lemma TerminateMsgInv(sys: Sys, w: WorkerId)
    requires Inv(sys) && w < |sys.workers| && sys.workers[w].mbox != [] && sys.workers[w].mbox[0] == Terminate
    ensures var k := sys.workers[w]; Inv(SetWorker(sys, w, k.(mbox := k.mbox[1..], terminate := true)))
  {
    WorkerAt(sys, w);
    TakeSame(sys.workers[w], |sys.tasks|);
    WorkerInv(sys, w, sys.workers[w].(mbox := sys.workers[w].mbox[1..], terminate := true));
  }

  lemma ProcessInv(sys: Sys, w: WorkerId, target: int)
    requires Inv(sys) && w < |sys.workers| && sys.workers[w].mbox != [] && target < |sys.workers|
    requires MsgOk(sys, sys.workers[w].mbox[0]) && !HasTask(sys.workers[w].pc) && !sys.workers[w].pc.Ended?
    ensures Inv(Process(sys, w, target))
  {
    var k := sys.workers[w];
    match k.mbox[0] {
      case Wakeup(t) => WakeupMsgInv(sys, w, t, target);
      case Assign(t) =>
        AssignMsgInv(sys, w, t);
        AssignIs(sys, w, t, target);
      case Terminate => TerminateMsgInv(sys, w);
    }
  }

  /** Handling a message does not move the worker. */
  lemma ProcessStays(sys: Sys, w: WorkerId, target: int)
    requires w < |sys.workers| && sys.workers[w].mbox != [] && target < |sys.workers| && MsgOk(sys, sys.workers[w].mbox[0])
    ensures |Process(sys, w, target).workers| == |sys.workers|
    ensures var k := Process(sys, w, target).workers[w]; k.pc == sys.workers[w].pc && k.migrated == sys.workers[w].migrated
  {
  }

  // A worker with a task

  lemma HeldTask(sys: Sys, w: WorkerId)
    requires Inv(sys) && w < |sys.workers| && HasTask(sys.workers[w].pc)
    ensures var t := sys.workers[w].pc.t;
      && t < |sys.tasks| && TaskOk(t, sys.tasks[t], sys.workers) && At(t, sys.tasks[t], w, sys.workers[w])
      && sys.tasks[t].place == On(w) && sys.tasks[t].wc == w
      && WorkerOk(w, sys.workers[w], sys.tasks) && sys.workers[w].migrated == None
      && sys.tasks[t].state == (if sys.workers[w].pc.Begin? then READY else RUNNING)
      && (sys.tasks[t].owed ==> sys.workers[w].pc.WillBlock?)
  {
    WorkerAt(sys, w);
    TaskAt(sys, sys.workers[w].pc.t);
    assert At(sys.workers[w].pc.t, sys.tasks[sys.workers[w].pc.t], w, sys.workers[w]);
  }

  /** Begin to Run, Run to WillBlock, WillBlock to Blocked */
  lemma AdvanceInv(sys: Sys, w: WorkerId, choice: Choice, next: TaskId)
    requires Inv(sys) && w < |sys.workers| && StepOk(sys, w, choice, next)
    requires var pc := sys.workers[w].pc; pc.Begin? || pc.WillBlock? || (pc.Run? && choice.Block?)
    ensures Inv(StepWorker(sys, w, choice, next))
  {
    HeldTask(sys, w);
    var k := sys.workers[w];
    var t := k.pc.t;
    var x := sys.tasks[t];
    match k.pc
    case Begin(_) => MoveAt(sys, t, x.(state := RUNNING), w, k.(pc := Run(t)));
    case Run(_) => MoveAt(sys, t, x.(owed := true), w, k.(pc := WillBlock(t)));
    case WillBlock(_) => MoveAt(sys, t, x.(state := BLOCKED, place := Blocked(w)), w, k.(pc := Drain(t)));
  }

  lemma YieldInv(sys: Sys, w: WorkerId, t: TaskId)
    requires Inv(sys) && w < |sys.workers| && sys.workers[w].pc == Run(t) && t < |sys.tasks|
    ensures Inv(YieldTask(sys, w, t))
  {
    HeldTask(sys, w);
    var k := sys.workers[w];
    var k' := k.(pc := Drain(t), queue := k.queue + multiset{t});
    QueueNames(k, t, |sys.tasks|);
    MoveAt(sys, t, sys.tasks[t].(state := READY, place := Queued(w)), w, k');
    assert YieldTask(sys, w, t).workers == sys.workers[w := k'];
  }

  lemma ExitFits(sys: Sys, w: WorkerId, t: TaskId)
    requires Inv(sys) && w < |sys.workers| && sys.workers[w].pc == Run(t) && t < |sys.tasks|
    ensures var k := sys.workers[w];
      Fits(sys, t, sys.tasks[t].(state := ZOMBIE, place := Gone), w, k.(pc := Drain(t), num := k.num - 1))
  {
    HeldTask(sys, w);
  }

  lemma ExitInv(sys: Sys, w: WorkerId, t: TaskId)
    requires Inv(sys) && w < |sys.workers| && sys.workers[w].pc == Run(t) && t < |sys.tasks|
    ensures Inv(ExitTask(sys, w, t))
  {
    ExitFits(sys, w, t);
    OnIsHere(sys, w, t);
    var k := sys.workers[w];
    var x, k' := sys.tasks[t].(state := ZOMBIE, place := Gone), k.(pc := Drain(t), num := k.num - 1);
    MoveAt(sys, t, x, w, k');
    assert ExitTask(sys, w, t) == SetTask(SetWorker(sys, w, k'), t, x);
  }

  lemma OnIsHere(sys: Sys, w: WorkerId, t: TaskId)
    requires Inv(sys) && w < |sys.workers| && sys.workers[w].pc == Run(t) && t < |sys.tasks|
    ensures sys.tasks[t].place == On(w) && sys.tasks[t].wc == w && !sys.tasks[t].owed
  {
    HeldTask(sys, w);
  }

  lemma SelfMigrateInv(sys: Sys, w: WorkerId, t: TaskId, target: WorkerId)
    requires Inv(sys) && w < |sys.workers| && sys.workers[w].pc == Run(t) && t < |sys.tasks|
    requires target < |sys.workers| && target != w
    ensures Inv(SelfMigrate(sys, w, t, target))
  {
    HeldTask(sys, w);
    var k := sys.workers[w];
    MoveAt(sys, t, sys.tasks[t].(state := READY, wc := target, place := Slot(w)), w, k.(pc := BackOnWorker, migrated := Some(t)));
  }

  lemma RunStepInv(sys: Sys, w: WorkerId, t: TaskId, choice: Choice)
    requires Inv(sys) && w < |sys.workers| && sys.workers[w].pc == Run(t) && t < |sys.tasks| && ChoiceOk(sys, choice)
    requires !choice.Block?
    ensures Inv(RunStep(sys, w, t, choice))
  {
    match choice
    case Yield(target) =>
      if !(sys.mech == WaitProp && target > 0) {
        YieldInv(sys, w, t);
      } else if target != w {
        SelfMigrateInv(sys, w, t, target);
      }
    case CheckMigrate(target) =>
      if sys.mech == Rand && target >= 0 && target != w {
        SelfMigrateInv(sys, w, t, target);
      }
    case Exit => ExitInv(sys, w, t);
    case Wake(u, target) => RunningWakesInv(sys, w, t, u, target);
  }

  lemma RunningWakesInv(sys: Sys, w: WorkerId, t: TaskId, u: TaskId, target: int)
    requires Inv(sys) && w < |sys.workers| && sys.workers[w].pc == Run(t) && t < |sys.tasks|
    requires ChoiceOk(sys, Wake(u, target))
    ensures Inv(WakeTask(sys, w, u, target))
  {
    HeldTask(sys, w);
    WakeTaskInv(sys, w, u, target);
  }

  // Between tasks

  lemma FetchInv(sys: Sys, w: WorkerId, next: TaskId, otherwise: Pc)
    requires Inv(sys) && w < |sys.workers| && Picks(sys.workers[w], next, |sys.tasks|)
    requires (sys.workers[w].pc.LoopTop? && otherwise.Waiting?) || (sys.workers[w].pc.Pick? && otherwise.BackOnWorker?)
    ensures Inv(Fetch(sys, w, next, otherwise))
  {
    var k := sys.workers[w];
    WorkerAt(sys, w);
    if k.queue == multiset{} {
      GotoInv(sys, w, otherwise);
    } else {
      TaskAt(sys, next);
      assert At(next, sys.tasks[next], w, k);
      MoveAt(sys, next, sys.tasks[next].(place := On(w)), w, k.(queue := k.queue - multiset{next}, pc := Begin(next)));
    }
  }

  /** The task in the slot of w */
  lemma InSlot(sys: Sys, w: WorkerId, t: TaskId)
    requires Inv(sys) && w < |sys.workers| && sys.workers[w].migrated == Some(t)
    ensures t < |sys.tasks| && sys.tasks[t].place == Slot(w) && sys.tasks[t].state == READY && !sys.tasks[t].owed
    ensures sys.tasks[t].wc < |sys.workers| && sys.tasks[t].wc != w
  {
    WorkerAt(sys, w);
    TaskAt(sys, t);
    var y := sys.tasks[t].wc;
    assert At(t, sys.tasks[t], w, sys.workers[w]) && At(t, sys.tasks[t], y, sys.workers[y]);
  }

  lemma SlotLeaves(sys: Sys, w: WorkerId, t: TaskId)
    requires Inv(sys) && w < |sys.workers| && sys.workers[w].migrated == Some(t)
    ensures t < |sys.tasks|
    ensures Fits(sys, t, sys.tasks[t].(place := AssignMsg(sys.tasks[t].wc)), w, sys.workers[w].(pc := Uncount, migrated := None))
  {
    InSlot(sys, w, t);
    WorkerAt(sys, w);
    TaskAt(sys, t);
    assert At(t, sys.tasks[t], w, sys.workers[w]);
  }

  lemma SendOffInv(sys: Sys, w: WorkerId, t: TaskId)
    requires Inv(sys) && w < |sys.workers| && sys.workers[w].migrated == Some(t)
    ensures t < |sys.tasks| && sys.tasks[t].wc < |sys.workers| && Inv(SendOff(sys, w, t))
  {
    InSlot(sys, w, t);
    SlotLeaves(sys, w, t);
    var x, y := sys.tasks[t], sys.tasks[t].wc;
    var x', k', l := x.(place := AssignMsg(y)), sys.workers[w].(pc := Uncount, migrated := None), sys.workers[y];
    Arrives(sys, t, x', y);
    MoveBetween(sys, t, x', w, k', y, l.(mbox := l.mbox + [Assign(t)]));
    assert SendOff(sys, w, t) == sys.(workers := sys.workers[w := k'][y := l.(mbox := l.mbox + [Assign(t)])], tasks := sys.tasks[t := x']);
  }

  lemma UncountInv(sys: Sys, w: WorkerId)
    requires Inv(sys) && w < |sys.workers| && sys.workers[w].pc.Uncount?
    ensures Inv(SetWorker(sys, w, sys.workers[w].(pc := LoopFetch, num := sys.workers[w].num - 1)))
  {
    WorkerAt(sys, w);
    WorkerInv(sys, w, sys.workers[w].(pc := LoopFetch, num := sys.workers[w].num - 1));
  }

  lemma StepWorkerInv(sys: Sys, w: WorkerId, choice: Choice, next: TaskId)
    requires Inv(sys) && w < |sys.workers| && StepOk(sys, w, choice, next)
    ensures Inv(StepWorker(sys, w, choice, next))
  {
    var k := sys.workers[w];
    WorkerAt(sys, w);
    match k.pc
    case LoopTop => FetchInv(sys, w, next, Waiting);
    case Waiting =>
      ProcessInv(sys, w, Target(choice));
      ProcessStays(sys, w, Target(choice));
      GotoInv(Process(sys, w, Target(choice)), w, LoopFetch);
    case LoopFetch =>
      if k.mbox != [] {
        ProcessInv(sys, w, Target(choice));
      } else {
        GotoInv(sys, w, if k.num == 0 && k.terminate then Ended else LoopTop);
      }
    case Begin(_) => AdvanceInv(sys, w, choice, next);
    case Run(t) =>
      if choice.Block? {
        AdvanceInv(sys, w, choice, next);
      } else {
        RunStepInv(sys, w, t, choice);
      }
    case WillBlock(_) => AdvanceInv(sys, w, choice, next);
    case Drain(t) =>
      if k.mbox != [] {
        ProcessInv(sys, w, Target(choice));
      } else {
        GotoInv(sys, w, Pick(t));
      }
    case Pick(_) => FetchInv(sys, w, next, BackOnWorker);
    case BackOnWorker =>
      if k.migrated == None {
        GotoInv(sys, w, LoopFetch);
      } else {
        SendOffInv(sys, w, k.migrated.t);
      }
    case Uncount => UncountInv(sys, w);
  }

  lemma CreateInv(sys: Sys, w: WorkerId)
    requires Inv(sys) && w < |sys.workers|
    ensures Inv(Apply(sys, Create(w)))
  {
    var sys' := Apply(sys, Create(w));
    var t := |sys.tasks|;
    forall v: WorkerId | v < |sys.workers|
      ensures WorkerOk(v, sys.workers[v], sys'.tasks) && At(t, sys'.tasks[t], v, sys.workers[v])
    {
      WorkerAt(sys, v);
      assert Located(sys'.tasks, v) == Located(sys.tasks, v);
      assert Assign(t) !in sys.workers[v].mbox && Wakeup(t) !in sys.workers[v].mbox;
    }
    forall u: TaskId | u < |sys'.tasks| ensures TaskOk(u, sys'.tasks[u], sys.workers) {
      if u < t {
        TaskAt(sys, u);
      }
    }
  }

  lemma ApplyInv(sys: Sys, a: Action)
    requires Inv(sys) && Enabled(sys, a)
    ensures Inv(Apply(sys, a))
  {
    match a
    case Create(w) => CreateInv(sys, w);
    case Start(t) => StartInv(sys, t);
    case WakeFromOutside(u) => SendWakeupInv(sys, u);
    case SendTerminate(w) => SendTerminateInv(sys, w);
    case Step(w, choice, next) => StepWorkerInv(sys, w, choice, next);
    case WakeLocal(w, u, target) => WakeTaskInv(sys, w, u, target);
  }

  lemma {:induction false} RunInv(sys: Sys, acts: seq<Action>)
    requires Inv(sys) && Legal(sys, acts)
    ensures Inv(After(sys, acts))
    decreases |acts|
  {
    if acts != [] {
      ApplyInv(sys, acts[0]);
      RunInv(Apply(sys, acts[0]), acts[1..]);
    }
  }

  lemma InitInv(sys: Sys)
    requires Init(sys)
    ensures Inv(sys)
  {
    assert forall w: WorkerId :: w < |sys.workers| ==> Located(sys.tasks, w) == {};
  }

  lemma ReachableInv(sys: Sys)
    requires Reachable(sys)
    ensures Inv(sys)
  {
    var s0, acts :| IsRun(s0, acts, sys);
    InitInv(s0);
    RunInv(s0, acts);
  }

  // ---------------------------------------------------------------------------
  // Extending a run

  lemma {:induction false} LegalAppend(sys: Sys, acts: seq<Action>, a: Action)
    requires Legal(sys, acts) && Enabled(After(sys, acts), a)
    ensures Legal(sys, acts + [a]) && After(sys, acts + [a]) == Apply(After(sys, acts), a)
    decreases |acts|
  {
    if acts == [] {
      assert (acts + [a])[1..] == [];
    } else {
      assert (acts + [a])[1..] == acts[1..] + [a];
      LegalAppend(Apply(sys, acts[0]), acts[1..], a);
    }
  }

  lemma ReachableStep(sys: Sys, a: Action)
    requires Reachable(sys) && Enabled(sys, a)
    ensures Reachable(Apply(sys, a))
  {
    var s0, acts :| IsRun(s0, acts, sys);
    LegalAppend(s0, acts, a);
    assert IsRun(s0, acts + [a], Apply(sys, a));
  }
}
