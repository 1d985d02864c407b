/**
  What each message and each step of the hierarchical scheduler does, field by field: the keys of
  tasks, the queue, the mailboxes and the waiting workers.
 */
module MasterLaws {
  import opened TaskQueue
  import opened Master
  import opened MasterGuarantees

  // ---------------------------------------------------------------------------
  // Neighbours of a returned task

  /** The task is in the ready queue, and its state says so. */
  predicate IsQueued(sys: Sys, u: TaskId) { u < |sys.tasks| && sys.tasks[u].state == INQUEUE && u in sys.ready }

  /** A key after an update: validity can change only under a demand limit, the priority only if asked for. */
  function Touched(key: Info, x: Update, limit: bool): Info {
    Info(if x.reprioritise then x.np else key.prio, if limit then x.valid else key.valid)
  }

  /** A listed neighbour in the queue gets its new priority and validity; nothing else changes, but for the order of the queue. */
  lemma NeighbourLaw(sys: Sys, x: Update)
    ensures var sys' := UpdateNeighbour(sys, x);
      && sys' == sys.(ready := sys'.ready, info := sys'.info) && multiset(sys'.ready) == multiset(sys.ready)
      && (forall u :: u != x.u ==> Key(sys'.info, u) == Key(sys.info, u))
      && Key(sys'.info, x.u) == if IsQueued(sys, x.u) then Touched(Key(sys.info, x.u), x, sys.limit) else Key(sys.info, x.u)
  {
    if IsQueued(sys, x.u) && x.reprioritise {
      UpdatePriorityKeeps(sys.ready, x.u, x.np, UpdateValid(sys, x.u, x.valid).info);
    }
  }

  /** What the updates that name u make of its key, in list order */
  function Computed(key: Info, updates: seq<Update>, u: TaskId, limit: bool): Info
    decreases |updates|
  {
    if updates == [] then key
    else Computed(if updates[0].u == u then Touched(key, updates[0], limit) else key, updates[1..], u, limit)
  }

  lemma {:induction false} NeighboursLaw(sys: Sys, updates: seq<Update>, u: TaskId)
    ensures var sys' := UpdateNeighbours(sys, updates);
      && multiset(sys'.ready) == multiset(sys.ready) && (u in sys'.ready <==> u in sys.ready)
      && Key(sys'.info, u) == if IsQueued(sys, u) then Computed(Key(sys.info, u), updates, u, sys.limit) else Key(sys.info, u)
    decreases |updates|
  {
    if updates != [] {
      NeighbourLaw(sys, updates[0]);
      SameMembers(sys.ready, UpdateNeighbour(sys, updates[0]).ready, u);
      NeighboursLaw(UpdateNeighbour(sys, updates[0]), updates[1..], u);
    }
  }

  lemma SameMembers(s: seq<TaskId>, s': seq<TaskId>, u: TaskId)
    requires multiset(s') == multiset(s)
    ensures u in s' <==> u in s
  {
    assert u in s' <==> u in multiset(s');
    assert u in s <==> u in multiset(s);
  }

  // ---------------------------------------------------------------------------
  // A ready task

  /** w is the lowest waiting worker. */
  predicate Lowest(waiting: seq<bool>, w: WorkerId) {
    w < |waiting| && waiting[w] && forall v :: 0 <= v < w ==> !waiting[v]
  }

  /** Nothing but the ready queue, the waiting flags, the workers' mailboxes, t's record and t's key may differ. */
  ghost predicate OnlyTask(sys: Sys, sys': Sys, t: TaskId)
    requires t < |sys.tasks|
  {
    && |sys'.tasks| == |sys.tasks|
    && sys' == sys.(ready := sys'.ready, info := sys'.info, waiting := sys'.waiting, wbox := sys'.wbox, tasks := sys.tasks[t := sys'.tasks[t]])
    && forall u :: u != t ==> Key(sys'.info, u) == Key(sys.info, u)
  }

  /** t goes to worker w, the lowest that waited. */
  ghost predicate GoesTo(sys: Sys, sys': Sys, t: TaskId, w: WorkerId)
    requires t < |sys.tasks| && |sys'.tasks| == |sys.tasks| && |sys.wbox| == |sys.waiting|
  {
    && Lowest(sys.waiting, w)
    && sys'.waiting == sys.waiting[w := false]
    && sys'.wbox == sys.wbox[w := sys.wbox[w] + [Assign(t)]]
    && sys'.ready == sys.ready
    && sys'.tasks[t] == sys.tasks[t].(place := Assigned(w))
  }

  /** t goes to the ready queue with key k. */
  ghost predicate GoesInQueue(sys: Sys, sys': Sys, t: TaskId, k: Info)
    requires t < |sys.tasks| && |sys'.tasks| == |sys.tasks|
  {
    && sys'.waiting == sys.waiting && sys'.wbox == sys.wbox
    && multiset(sys'.ready) == multiset(sys.ready) + multiset{t}
    && sys'.tasks[t] == sys.tasks[t].(state := INQUEUE, place := Queue)
    && Key(sys'.info, t) == k
  }

  /**
    What becomes of a ready task: an invalid one is queued as it is; a valid one goes to the lowest
    waiting worker, or is queued with its computed priority.
   */
  ghost predicate ReadyOutcome(sys: Sys, sys': Sys, t: TaskId, valid: bool, prio: int)
    requires t < |sys.tasks| && Shape(sys)
  {
    && OnlyTask(sys, sys', t)
    && var k := Key(sys.info, t);
    && var v := if sys.limit then valid else k.valid;
    && (if !v then GoesInQueue(sys, sys', t, Info(k.prio, false))
        else if NoneWaiting(sys.waiting) then GoesInQueue(sys, sys', t, Info(prio, true))
        else Key(sys'.info, t) == Info(k.prio, true) && exists w :: GoesTo(sys, sys', t, w))
  }

  lemma ServeOrEnqueueLaw(sys: Sys, t: TaskId, info: Table)
    requires Shape(sys) && t < |sys.tasks| && forall u :: u != t ==> Key(info, u) == Key(sys.info, u)
    ensures var sys' := ServeOrEnqueue(sys, t, info);
      && OnlyTask(sys, sys', t)
      && (if NoneWaiting(sys.waiting) then GoesInQueue(sys, sys', t, Key(info, t))
          else sys'.info == sys.info && exists w :: GoesTo(sys, sys', t, w))
  {
    var i, sys' := FirstWaiting(sys.waiting), ServeOrEnqueue(sys, t, info);
    if i < |sys.waiting| {
      assert GoesTo(sys, sys', t, i);
    } else {
      PushKeeps(sys.ready, t, info);
    }
  }

  lemma InvalidLaw(sys: Sys, t: TaskId, valid: bool, prio: int)
    requires Shape(sys) && t < |sys.tasks| && !Key(UpdateValid(sys, t, valid).info, t).valid
    ensures ReadyOutcome(sys, ProcessReady(sys, t, valid, prio), t, valid, prio)
  {
    var sys1 := UpdateValid(sys, t, valid);
    PushKeeps(sys1.ready, t, sys1.info);
  }

  lemma ValidLaw(sys: Sys, t: TaskId, valid: bool, prio: int)
    requires Shape(sys) && t < |sys.tasks| && Key(UpdateValid(sys, t, valid).info, t).valid
    ensures ReadyOutcome(sys, ProcessReady(sys, t, valid, prio), t, valid, prio)
  {
    var sys1 := UpdateValid(sys, t, valid);
    var sys' := ServeOrEnqueue(sys1, t, SetPrio(sys1.info, t, prio));
    ServeOrEnqueueLaw(sys1, t, SetPrio(sys1.info, t, prio));
    if !NoneWaiting(sys.waiting) {
      var w :| GoesTo(sys1, sys', t, w);
      assert GoesTo(sys, sys', t, w);
    }
  }

  lemma ProcessReadyLaw(sys: Sys, t: TaskId, valid: bool, prio: int)
    requires Shape(sys) && t < |sys.tasks|
    ensures ReadyOutcome(sys, ProcessReady(sys, t, valid, prio), t, valid, prio)
  {
    if Key(UpdateValid(sys, t, valid).info, t).valid {
      ValidLaw(sys, t, valid, prio);
    } else {
      InvalidLaw(sys, t, valid, prio);
    }
  }

  // ---------------------------------------------------------------------------
  // The head of the queue

  /** The head of the queue goes to worker w; waiting flags apart, nothing else changes. */
  ghost predicate HandsOut(sys: Sys, sys': Sys, w: WorkerId)
    requires sys.ready != [] && sys.ready[0] < |sys.tasks|
  {
    var h := sys.ready[0];
    && w < |sys.wbox|
    && sys' == sys.(ready := sys'.ready, waiting := sys'.waiting, wbox := sys.wbox[w := sys.wbox[w] + [Assign(h)]],
                    tasks := sys.tasks[h := sys.tasks[h].(state := READY, place := Assigned(w))])
    && multiset(sys'.ready) == multiset(sys.ready) - multiset{h}
  }

  predicate HeadValid(sys: Sys) { sys.ready != [] && Key(sys.info, sys.ready[0]).valid }

  lemma HandoutLaw(sys: Sys, w: WorkerId)
    requires w < |sys.wbox| && sys.ready != [] && sys.ready[0] < |sys.tasks|
    ensures HandsOut(sys, Handout(sys, w), w) && Handout(sys, w).waiting == sys.waiting
  {
    OccupyKeeps(sys.ready, sys.ready[0], sys.info);
  }

  /** After the neighbours the head is handed out exactly if it is valid and a worker waits: to the lowest that does. */
  lemma ServeHeadLaw(sys: Sys)
    requires Shape(sys) && InRange(sys)
    ensures var sys' := ServeHead(sys);
      if HeadValid(sys) && !NoneWaiting(sys.waiting)
      then exists w: WorkerId :: Lowest(sys.waiting, w) && sys'.waiting == sys.waiting[w := false] && HandsOut(sys, sys', w)
      else sys' == sys
  {
    var i := FirstWaiting(sys.waiting);
    if HeadValid(sys) && i < |sys.waiting| {
      HandoutLaw(sys.(waiting := sys.waiting[i := false]), i);
      assert Lowest(sys.waiting, i) && HandsOut(sys, ServeHead(sys), i);
    }
  }

  /**
    On a request the worker comes to wait, with queue, tasks and mailboxes unchanged, exactly if the
    queue is empty or its head is invalid; otherwise the head is the one task added to its mailbox.
   */
  lemma RequestLaw(sys: Sys, w: WorkerId, updates: seq<Update>, valid: bool, prio: int)
    requires Reachable(sys) && Shape(sys) && Enabled(sys, MasterStep(updates, valid, prio)) && sys.mbox[0] == Request(w)
    ensures w < |sys.waiting| && !sys.waiting[w]
    ensures var sys' := StepMaster(sys, updates, valid, prio);
      && |sys'.waiting| == |sys.waiting|
      && (sys'.waiting[w] <==> !HeadValid(sys))
      && (!HeadValid(sys) ==>
            sys' == sys.(mbox := sys.mbox[1..], waiting := sys.waiting[w := true], stopped := sys.terminate && sys.ready == []))
      && (HeadValid(sys) ==>
            && sys.ready[0] < |sys.tasks| && sys'.waiting == sys.waiting
            && HandsOut(sys.(mbox := sys.mbox[1..], stopped := sys'.stopped), sys', w))
  {
    ReachableInv(sys);
    OneCredit(sys, w);
    assert sys.mbox[0] in multiset(sys.mbox);
    RequestStep(sys, w, updates, valid, prio);
  }

  lemma RequestStep(sys: Sys, w: WorkerId, updates: seq<Update>, valid: bool, prio: int)
    requires Shape(sys) && InRange(sys) && Enabled(sys, MasterStep(updates, valid, prio)) && sys.mbox[0] == Request(w)
    ensures w < |sys.waiting|
    ensures var sys' := StepMaster(sys, updates, valid, prio);
      if HeadValid(sys) then
        && sys.ready[0] < |sys.tasks| && sys'.waiting == sys.waiting
        && HandsOut(sys.(mbox := sys.mbox[1..], stopped := sys'.stopped), sys', w)
      else sys' == sys.(mbox := sys.mbox[1..], waiting := sys.waiting[w := true], stopped := sys.terminate && sys.ready == [])
  {
    if HeadValid(sys) {
      HandoutLaw(sys.(mbox := sys.mbox[1..]), w);
    }
  }

  // ---------------------------------------------------------------------------
  // The other messages

  /** A terminate message sets terminate, and the loop ends at once exactly if the queue is empty. */
  lemma TerminateLaw(sys: Sys, updates: seq<Update>, valid: bool, prio: int)
    requires Shape(sys) && Enabled(sys, MasterStep(updates, valid, prio)) && sys.mbox[0] == Terminate
    ensures StepMaster(sys, updates, valid, prio) == sys.(mbox := sys.mbox[1..], terminate := true, stopped := sys.ready == [])
  {
  }

  /** The state in which the message is handled, with another record for the task it names */
  function Handling(sys: Sys, t: TaskId, x: Task): Sys
    requires t < |sys.tasks| && sys.mbox != []
  {
    sys.(mbox := sys.mbox[1..], tasks := sys.tasks[t := x])
  }

  /** The flag the loop tests is not looked at. */
  function Unflagged(sys: Sys): Sys { sys.(stopped := false) }

  /** A new task goes to the lowest waiting worker, or is queued with the key it has. */
  lemma NewTaskLaw(sys: Sys, t: TaskId, updates: seq<Update>, valid: bool, prio: int)
    requires Inv(sys) && Enabled(sys, MasterStep(updates, valid, prio)) && sys.mbox[0] == NewTask(t)
    ensures var sys1 := Unflagged(Handling(sys, t, sys.tasks[t].(state := READY, place := Hand)));
      var sys' := Unflagged(StepMaster(sys, updates, valid, prio));
      && OnlyTask(sys1, sys', t) && sys'.info == sys.info
      && (if NoneWaiting(sys.waiting) then GoesInQueue(sys1, sys', t, Key(sys.info, t)) else exists w :: GoesTo(sys1, sys', t, w))
  {
    var sys1 := Handling(sys, t, sys.tasks[t].(state := READY, place := Hand));
    ServeOrEnqueueLaw(sys1, t, sys.info);
    var sys2 := ServeOrEnqueue(sys1, t, sys.info);
    if !NoneWaiting(sys.waiting) {
      var w :| GoesTo(sys1, sys2, t, w);
      assert GoesTo(Unflagged(sys1), Unflagged(sys2), t, w);
    }
  }

  lemma OutcomeUnflagged(sys: Sys, sys': Sys, t: TaskId, valid: bool, prio: int)
    requires Shape(sys) && t < |sys.tasks| && ReadyOutcome(sys, sys', t, valid, prio)
    ensures ReadyOutcome(Unflagged(sys), Unflagged(sys'), t, valid, prio)
  {
    if w :| GoesTo(sys, sys', t, w) {
      assert GoesTo(Unflagged(sys), Unflagged(sys'), t, w);
    }
  }

  /** A parked task's record when it has been made ready */
  function Readied(x: Task): Task { x.(state := READY, place := Hand, wakenup := false, unblocks := x.unblocks + 1) }

  /** A wakeup makes a parked task ready, and is noted on any other, with nothing else changed. */
  lemma WakeupLaw(sys: Sys, t: TaskId, updates: seq<Update>, valid: bool, prio: int)
    requires Inv(sys) && Enabled(sys, MasterStep(updates, valid, prio)) && sys.mbox[0] == Wakeup(t)
    ensures var sys' := StepMaster(sys, updates, valid, prio);
      if sys.tasks[t].place == Parked
      then ReadyOutcome(Unflagged(Handling(sys, t, Readied(sys.tasks[t]))), Unflagged(sys'), t, valid, prio)
      else Unflagged(sys') == Unflagged(Handling(sys, t, sys.tasks[t].(wakenup := true)))
  {
    TaskAt(sys, t);
    if sys.tasks[t].place == Parked {
      var sys1 := Handling(sys, t, Readied(sys.tasks[t]));
      ParkedWoken(sys, t, updates, valid, prio);
      ProcessReadyLaw(sys1, t, valid, prio);
      OutcomeUnflagged(sys1, ProcessReady(sys1, t, valid, prio), t, valid, prio);
    }
  }

  lemma ParkedWoken(sys: Sys, t: TaskId, updates: seq<Update>, valid: bool, prio: int)
    requires Shape(sys) && Enabled(sys, MasterStep(updates, valid, prio)) && sys.mbox[0] == Wakeup(t)
    requires sys.tasks[t].state == RETURNED && !sys.tasks[t].wakenup
    ensures StepMaster(sys, updates, valid, prio) == EndTurn(ProcessReady(Handling(sys, t, Readied(sys.tasks[t])), t, valid, prio))
  {
    var x := sys.tasks[t];
    assert sys.tasks[t := x.(place := Hand)][t := Readied(x)] == sys.tasks[t := Readied(x)];
  }

  // ---------------------------------------------------------------------------
  // A returned task

  /** What becomes of a returned task: destroyed if it has exited, parked if it is blocked and not yet woken, otherwise ready. */
  ghost predicate ReturnOutcome(mid: Sys, sys': Sys, t: TaskId, valid: bool, prio: int)
    requires t < |mid.tasks| && Shape(mid)
  {
    var x := mid.tasks[t];
    match x.state
    case ZOMBIE => sys' == SetTask(mid, t, x.(place := Destroyed))
    case BLOCKED =>
      if x.wakenup then ReadyOutcome(SetTask(mid, t, Readied(x)), sys', t, valid, prio)
      else sys' == SetTask(mid, t, x.(state := RETURNED, place := Parked))
    case _ => ReadyOutcome(mid, sys', t, valid, prio)
  }

  lemma ProcessReturnedLaw(mid: Sys, t: TaskId, valid: bool, prio: int)
    requires Shape(mid) && t < |mid.tasks| && mid.tasks[t].place == Hand && mid.tasks[t].state in {READY, BLOCKED, ZOMBIE}
    ensures ReturnOutcome(mid, ProcessReturned(mid, t, valid, prio), t, valid, prio)
  {
    var x := mid.tasks[t];
    match x.state {
      case BLOCKED =>
        if x.wakenup {
          assert mid.tasks[t := x.(wakenup := false)][t := Readied(x)] == mid.tasks[t := Readied(x)];
          ProcessReadyLaw(SetTask(mid, t, Readied(x)), t, valid, prio);
        }
      case READY => ProcessReadyLaw(mid, t, valid, prio);
      case _ =>
    }
  }

  /** After the neighbours of a returned task: every queued task has its computed key, and at most the head has gone. */
  ghost predicate NeighboursDone(sys: Sys, mid: Sys, updates: seq<Update>) {
    && (forall u :: Key(mid.info, u) == if IsQueued(sys, u) then Computed(Key(sys.info, u), updates, u, sys.limit) else Key(sys.info, u))
    && mid == sys.(ready := mid.ready, info := mid.info, waiting := mid.waiting, wbox := mid.wbox, tasks := mid.tasks)
    && (SameLoads(sys, mid) || exists h, w :: HeadGone(sys, mid, h, w))
  }

  ghost predicate SameLoads(sys: Sys, mid: Sys) {
    mid.waiting == sys.waiting && mid.wbox == sys.wbox && mid.tasks == sys.tasks && multiset(mid.ready) == multiset(sys.ready)
  }

  /** The queued and now valid task h has gone to w, the lowest that waited. */
  ghost predicate HeadGone(sys: Sys, mid: Sys, h: TaskId, w: WorkerId) {
    && Lowest(sys.waiting, w) && w < |sys.wbox| && h < |sys.tasks| && h in sys.ready && Key(mid.info, h).valid
    && mid.waiting == sys.waiting[w := false] && mid.wbox == sys.wbox[w := sys.wbox[w] + [Assign(h)]]
    && mid.tasks == sys.tasks[h := sys.tasks[h].(state := READY, place := Assigned(w))]
    && multiset(mid.ready) == multiset(sys.ready) - multiset{h}
  }

  lemma BeforeSwitchLaw(sys: Sys, updates: seq<Update>)
    requires Shape(sys) && TasksOk(sys)
    ensures NeighboursDone(sys, BeforeSwitch(sys, updates), updates)
    ensures SameLoads(sys, BeforeSwitch(sys, updates)) <==>
              !(HeadValid(UpdateNeighbours(sys, updates)) && !NoneWaiting(sys.waiting))
  {
    UpdateNeighboursOk(sys, updates);
    KeysDone(sys, updates);
    NeighboursLaw(sys, updates, 0);
    HeadDone(sys, UpdateNeighbours(sys, updates));
  }

  lemma KeysDone(sys: Sys, updates: seq<Update>)
    ensures var info := UpdateNeighbours(sys, updates).info;
      forall u :: Key(info, u) == if IsQueued(sys, u) then Computed(Key(sys.info, u), updates, u, sys.limit) else Key(sys.info, u)
  {
    forall u: TaskId
      ensures Key(UpdateNeighbours(sys, updates).info, u)
           == if IsQueued(sys, u) then Computed(Key(sys.info, u), updates, u, sys.limit) else Key(sys.info, u)
    {
      NeighboursLaw(sys, updates, u);
    }
  }

  /** sys1 is sys with its neighbours updated. */
  lemma HeadDone(sys: Sys, sys1: Sys)
    requires Shape(sys1) && InRange(sys1)
    requires sys1 == sys.(ready := sys1.ready, info := sys1.info) && multiset(sys1.ready) == multiset(sys.ready)
    ensures var mid := ServeHead(sys1);
      && mid == sys.(ready := mid.ready, info := sys1.info, waiting := mid.waiting, wbox := mid.wbox, tasks := mid.tasks)
      && (if HeadValid(sys1) && !NoneWaiting(sys.waiting) then !SameLoads(sys, mid) && exists h, w :: HeadGone(sys, mid, h, w)
          else SameLoads(sys, mid))
  {
    var mid := ServeHead(sys1);
    ServeHeadLaw(sys1);
    if HeadValid(sys1) && !NoneWaiting(sys.waiting) {
      var w: WorkerId :| Lowest(sys1.waiting, w) && mid.waiting == sys1.waiting[w := false] && HandsOut(sys1, mid, w);
      SameMembers(sys.ready, sys1.ready, sys1.ready[0]);
      assert HeadGone(sys, mid, sys1.ready[0], w);
      assert mid.waiting[w] != sys.waiting[w];
    }
  }

  /** The whole handler of a return: first the neighbours, then the task. */
  lemma ReturnLaw(sys: Sys, t: TaskId, updates: seq<Update>, valid: bool, prio: int) returns (mid: Sys)
    requires Inv(sys) && Enabled(sys, MasterStep(updates, valid, prio)) && sys.mbox[0] == Return(t)
    ensures NeighboursDone(Handling(sys, t, sys.tasks[t].(place := Hand)), mid, updates)
    ensures Shape(mid) && t < |mid.tasks| && mid.tasks[t] == sys.tasks[t].(place := Hand) && Key(mid.info, t) == Key(sys.info, t)
    ensures exists sys' :: ReturnOutcome(mid, sys', t, valid, prio) && StepMaster(sys, updates, valid, prio) == EndTurn(sys')
  {
    var sys1 := Handling(sys, t, sys.tasks[t].(place := Hand));
    ReturnInHand(sys, t);
    NeighboursInHand(sys1, updates, t);
    UpdateNeighboursShape(sys1, updates);
    HeadInHand(UpdateNeighbours(sys1, updates), t);
    mid := BeforeSwitch(sys1, updates);
    BeforeSwitchLaw(sys1, updates);
    HandKept(sys1, updates, t);
    ProcessReturnedLaw(mid, t, valid, prio);
    assert ReturnOutcome(mid, ProcessReturned(mid, t, valid, prio), t, valid, prio);
  }

  lemma HandKept(sys: Sys, updates: seq<Update>, t: TaskId)
    requires Shape(sys) && ReturnedInHand(sys, t)
    ensures var mid := BeforeSwitch(sys, updates); |mid.tasks| == |sys.tasks| && mid.tasks[t] == sys.tasks[t]
  {
    UpdateNeighboursOk(sys, updates);
    ServeHeadOk(UpdateNeighbours(sys, updates));
  }

  // ---------------------------------------------------------------------------
  // Workers and callers

  /** Only worker w moves, and only t's record changes. */
  ghost predicate OnlyWorker(sys: Sys, sys': Sys, w: WorkerId, pc: WorkerPc, t: TaskId, x: Task)
    requires w < |sys.worker| && t < |sys.tasks|
  {
    sys' == sys.(worker := sys.worker[w := pc], tasks := sys.tasks[t := x])
  }

  /**
    What a running task's choice makes of it: it is a zombie exactly if it exits and ready exactly if it
    yields, and then its worker has to ask for the next task; if it blocks, its one wakeup is owed from
    then on, and it runs on until its state is set.
   */
  lemma ChoiceLaw(sys: Sys, w: WorkerId, choice: Choice)
    requires Reachable(sys) && Enabled(sys, WorkerStep(w, choice)) && sys.worker[w].Run?
    ensures Shape(sys) && sys.worker[w].t < |sys.tasks|
    ensures var t, sys' := sys.worker[w].t, Apply(sys, WorkerStep(w, choice));
      && |sys'.worker| == |sys.worker| && |sys'.tasks| == |sys.tasks|
      && var x, x', pc' := sys.tasks[t], sys'.tasks[t], sys'.worker[w];
      && OnlyWorker(sys, sys', w, pc', t, x') && x'.place == OnWorker(w)
      && (x'.state == ZOMBIE <==> choice == Exit) && (x'.state == READY <==> choice == Yield) && (x'.state == RUNNING <==> choice == Block)
      && pc' == (if choice == Block then WillBlock(t) else MustRequest(t))
      && (x'.owed <==> choice == Block) && x'.blocks == x.blocks + (if choice == Block then 1 else 0)
  {
    ReachableInv(sys);
    RunningTask(sys, w);
  }

  lemma LeaveFrame(sys: Sys, w: WorkerId, t: TaskId, choice: Choice)
    requires w < |sys.worker| && t < |sys.tasks|
    ensures var sys' := Leave(sys, w, t, choice);
      sys'.mbox == sys.mbox && sys'.wbox == sys.wbox && |sys'.worker| == |sys.worker| && sys'.worker == sys.worker[w := sys'.worker[w]]
  {
  }

  /** An idle worker takes its first message: a task, which it switches to, or the stop message. */
  lemma TakeLaw(sys: Sys, w: WorkerId, choice: Choice)
    requires Shape(sys) && Enabled(sys, WorkerStep(w, choice)) && sys.worker[w].Idle?
    ensures var sys' := Apply(sys, WorkerStep(w, choice));
      && sys'.mbox == sys.mbox && sys'.wbox == sys.wbox[w := sys.wbox[w][1..]]
      && sys'.worker == sys.worker[w := if sys.wbox[w][0].Assign? then Dispatch(sys.wbox[w][0].t) else Ended]
  {
    assert Apply(sys, WorkerStep(w, choice)) == Receive(sys, w);
  }

  /** The message a worker sends to the master: a request before its first task and after each, and the return of each task. */
  function Mails(pc: WorkerPc, w: WorkerId): seq<Msg> {
    match pc
    case Starting => [Request(w)]
    case MustRequest(_) => [Request(w)]
    case MustReturn(t) => [Return(t)]
    case _ => []
  }

  /** Where a worker goes on, but for the choice of its task and the message it takes */
  predicate GoesOn(pc: WorkerPc, pc': WorkerPc) {
    match pc
    case Starting => pc' == Idle
    case Dispatch(t) => pc' == Run(t)
    case Run(t) => pc' in {WillBlock(t), MustRequest(t)}
    case WillBlock(t) => pc' == MustRequest(t)
    case MustRequest(t) => pc' == MustReturn(t)
    case MustReturn(t) => pc' == Idle
    case _ => false
  }

  /** A worker that is not idle sends what is due, goes on, and leaves the other workers and their mailboxes alone. */
  lemma WorkerLaw(sys: Sys, w: WorkerId, choice: Choice)
    requires Shape(sys) && Enabled(sys, WorkerStep(w, choice)) && !sys.worker[w].Idle?
    ensures var sys' := Apply(sys, WorkerStep(w, choice));
      && sys'.mbox == sys.mbox + Mails(sys.worker[w], w) && sys'.wbox == sys.wbox
      && |sys'.worker| == |sys.worker| && sys'.worker == sys.worker[w := sys'.worker[w]]
      && GoesOn(sys.worker[w], sys'.worker[w])
  {
    match sys.worker[w]
    case Run(t) =>
      assert Apply(sys, WorkerStep(w, choice)) == Leave(sys, w, t, choice);
      LeaveFrame(sys, w, t, choice);
    case _ =>
  }

  /** What callers send: a created task, the wakeup of a blocked one, terminate; and the master's last message to all workers. */
  lemma CallerLaw(sys: Sys, a: Action)
    requires Shape(sys) && Enabled(sys, a) && !a.WorkerStep? && !a.MasterStep?
    ensures var sys' := Apply(sys, a);
      match a
      case Spawn(prio) => sys'.mbox == sys.mbox + [NewTask(|sys.tasks|)] && |sys'.tasks| == |sys.tasks| + 1 && sys'.ready == sys.ready
      case SendTerminate => sys' == sys.(mbox := sys.mbox + [Terminate])
      case SendWakeup(t) => sys' == sys.(mbox := sys.mbox + [Wakeup(t)], tasks := sys.tasks[t := sys.tasks[t].(owed := false)])
      case TellWorkers =>
        && |sys'.wbox| == |sys.wbox| && sys' == sys.(wbox := sys'.wbox, told := true)
        && forall w :: 0 <= w < |sys.wbox| ==> sys'.wbox[w] == sys.wbox[w] + [Stop]
      case _ => true
  {
  }
}
