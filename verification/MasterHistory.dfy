/**
  Whole runs of the hierarchical scheduler, with or without a demand limit: what is sent is valid, a
  new task keeps the key it was created with, and a task is gone exactly when it has exited.
 */
module MasterHistory {
  import opened TaskQueue
  import opened Master
  import opened MasterGuarantees
  import opened MasterLaws
  import opened MasterOrder

  // ---------------------------------------------------------------------------
  // One turn of the master, for one task

  /** t is sent to a worker. */
  predicate Sends(sys: Sys, sys': Sys, t: TaskId) {
    && t < |sys.tasks| && t < |sys'.tasks|
    && !sys.tasks[t].place.Assigned? && sys'.tasks[t].place.Assigned?
  }

  /**
    If u is sent, it is valid, or new and with its old key; it becomes new in no turn, and keeps its key
    as long as it is new; and the master neither ends nor revives it.
   */
  ghost predicate TurnOne(sys: Sys, sys': Sys, u: TaskId) {
    && u < |sys.tasks| == |sys'.tasks|
    && var x, x' := sys.tasks[u], sys'.tasks[u];
    && (Sends(sys, sys', u) ==> if x.place == NewMsg then Key(sys'.info, u) == Key(sys.info, u) else Key(sys'.info, u).valid)
    && (x'.place == NewMsg ==> x.place == NewMsg && Key(sys'.info, u) == Key(sys.info, u))
    && (x'.state == ZOMBIE <==> x.state == ZOMBIE)
  }

  /** A task whose record and key stay */
  lemma SameOne(sys: Sys, sys': Sys, u: TaskId)
    requires u < |sys.tasks| == |sys'.tasks| && sys'.tasks[u] == sys.tasks[u] && Key(sys'.info, u) == Key(sys.info, u)
    ensures TurnOne(sys, sys', u)
  {
  }

  /** A task in the master's hand that was not new is ready. */
  lemma ReadyOne(sys: Sys, sys1: Sys, sys': Sys, t: TaskId, valid: bool, prio: int)
    requires Shape(sys1) && t < |sys.tasks| == |sys1.tasks| && ReadyOutcome(sys1, sys', t, valid, prio)
    requires sys1.tasks[t].state == READY && sys1.tasks[t].place == Hand
    requires sys.tasks[t].place != NewMsg && sys.tasks[t].state != ZOMBIE
    ensures TurnOne(sys, sys', t)
  {
  }

  lemma ReadyOthers(sys1: Sys, sys': Sys, t: TaskId, valid: bool, prio: int, u: TaskId)
    requires Shape(sys1) && t < |sys1.tasks| && ReadyOutcome(sys1, sys', t, valid, prio) && u < |sys1.tasks| && u != t
    ensures |sys'.tasks| == |sys1.tasks| && sys'.tasks[u] == sys1.tasks[u] && Key(sys'.info, u) == Key(sys1.info, u)
  {
  }

  lemma ParkedState(sys: Sys, t: TaskId)
    requires Inv(sys) && t < |sys.tasks|
    ensures sys.tasks[t].place == Parked ==> sys.tasks[t].state == RETURNED
  {
    TaskAt(sys, t);
  }

  /** A parked task is woken. */
  lemma ParkedOne(sys: Sys, sys': Sys, t: TaskId, valid: bool, prio: int, u: TaskId)
    requires Shape(sys) && sys.mbox != [] && t < |sys.tasks| && u < |sys.tasks| && sys.tasks[t].place == Parked && sys.tasks[t].state == RETURNED
    requires ReadyOutcome(Unflagged(Handling(sys, t, MasterLaws.Readied(sys.tasks[t]))), sys', t, valid, prio)
    ensures TurnOne(sys, sys', u)
  {
    var sys1 := Unflagged(Handling(sys, t, MasterLaws.Readied(sys.tasks[t])));
    if u == t {
      ReadyOne(sys, sys1, sys', t, valid, prio);
    } else {
      ReadyOthers(sys1, sys', t, valid, prio, u);
      SameOne(sys, sys', u);
    }
  }

  lemma WakeupOne(sys: Sys, t: TaskId, updates: seq<Update>, valid: bool, prio: int, u: TaskId)
    requires Inv(sys) && Enabled(sys, MasterStep(updates, valid, prio)) && sys.mbox[0] == Wakeup(t) && u < |sys.tasks|
    ensures TurnOne(sys, Unflagged(StepMaster(sys, updates, valid, prio)), u)
  {
    WakeupLaw(sys, t, updates, valid, prio);
    ParkedState(sys, t);
    if sys.tasks[t].place == Parked {
      ParkedOne(sys, Unflagged(StepMaster(sys, updates, valid, prio)), t, valid, prio, u);
    }
  }

  lemma NewTaskOne(sys: Sys, t: TaskId, updates: seq<Update>, valid: bool, prio: int, u: TaskId)
    requires Inv(sys) && Enabled(sys, MasterStep(updates, valid, prio)) && sys.mbox[0] == NewTask(t) && u < |sys.tasks|
    ensures TurnOne(sys, Unflagged(StepMaster(sys, updates, valid, prio)), u)
  {
    NewTaskLaw(sys, t, updates, valid, prio);
    TaskAt(sys, t);
    assert sys.mbox[0] in multiset(sys.mbox);
  }

  lemma RequestOne(sys: Sys, w: WorkerId, updates: seq<Update>, valid: bool, prio: int, u: TaskId)
    requires Inv(sys) && Enabled(sys, MasterStep(updates, valid, prio)) && sys.mbox[0] == Request(w) && u < |sys.tasks|
    ensures TurnOne(sys, StepMaster(sys, updates, valid, prio), u)
  {
    RequestStep(sys, w, updates, valid, prio);
    if HeadValid(sys) {
      QueuedTask(sys, sys.ready[0]);
    }
  }

  lemma QueuedTask(sys: Sys, h: TaskId)
    requires Inv(sys) && h in sys.ready
    ensures h < |sys.tasks| && sys.tasks[h].place == Queue && sys.tasks[h].state == INQUEUE
  {
    assert h in multiset(sys.ready);
    TaskAt(sys, h);
  }

  // A return

  /** The neighbours and the head, for a task that is not in the master's hand */
  lemma NeighboursOne(sys: Sys, mid: Sys, updates: seq<Update>, u: TaskId)
    requires NeighboursDone(sys, mid, updates) && u < |sys.tasks|
    requires u in sys.ready ==> sys.tasks[u].state == INQUEUE && sys.tasks[u].place == Queue
    requires sys.tasks[u].state == INQUEUE ==> sys.tasks[u].place == Queue
    ensures TurnOne(sys, mid, u)
  {
    if !SameLoads(sys, mid) {
      var h, w :| HeadGone(sys, mid, h, w);
    }
  }

  lemma ReturnedOne(sys: Sys, mid: Sys, sys': Sys, t: TaskId, valid: bool, prio: int)
    requires Shape(mid) && t < |sys.tasks| == |mid.tasks| && ReturnOutcome(mid, sys', t, valid, prio)
    requires mid.tasks[t].place == Hand && mid.tasks[t].state == sys.tasks[t].state && sys.tasks[t].state in {READY, BLOCKED, ZOMBIE} && sys.tasks[t].place != NewMsg
    ensures TurnOne(sys, sys', t)
  {
    var x := mid.tasks[t];
    if x.state == READY {
      ReadyOne(sys, mid, sys', t, valid, prio);
    } else if x.state == BLOCKED && x.wakenup {
      ReadyOne(sys, SetTask(mid, t, MasterLaws.Readied(x)), sys', t, valid, prio);
    }
  }

  lemma ReturnedOthers(mid: Sys, sys': Sys, t: TaskId, valid: bool, prio: int, u: TaskId)
    requires Shape(mid) && t < |mid.tasks| && ReturnOutcome(mid, sys', t, valid, prio) && u < |mid.tasks| && u != t
    ensures |sys'.tasks| == |mid.tasks| && sys'.tasks[u] == mid.tasks[u] && Key(sys'.info, u) == Key(mid.info, u)
  {
    var x := mid.tasks[t];
    if x.state == BLOCKED && x.wakenup {
      ReadyOthers(SetTask(mid, t, MasterLaws.Readied(x)), sys', t, valid, prio, u);
    } else if x.state != BLOCKED && x.state != ZOMBIE {
      ReadyOthers(mid, sys', t, valid, prio, u);
    }
  }

  lemma HandlingOne(sys: Sys, sys1: Sys, sys': Sys, u: TaskId)
    requires TurnOne(sys1, sys', u) && u < |sys.tasks| == |sys1.tasks| && sys1.tasks[u] == sys.tasks[u] && sys1.info == sys.info
    ensures TurnOne(sys, sys', u)
  {
  }

  lemma MidOne(sys1: Sys, mid: Sys, sys': Sys, u: TaskId)
    requires TurnOne(sys1, mid, u) && |sys'.tasks| == |mid.tasks| && sys'.tasks[u] == mid.tasks[u] && Key(sys'.info, u) == Key(mid.info, u)
    ensures TurnOne(sys1, sys', u)
  {
  }

  lemma ReturnOne(sys: Sys, t: TaskId, updates: seq<Update>, valid: bool, prio: int, u: TaskId)
    requires Inv(sys) && Enabled(sys, MasterStep(updates, valid, prio)) && sys.mbox[0] == Return(t) && u < |sys.tasks|
    ensures TurnOne(sys, StepMaster(sys, updates, valid, prio), u)
  {
    var mid := ReturnLaw(sys, t, updates, valid, prio);
    var sys' :| ReturnOutcome(mid, sys', t, valid, prio) && StepMaster(sys, updates, valid, prio) == EndTurn(sys');
    ReturnedState(sys, t);
    if u == t {
      ReturnedOne(sys, mid, sys', t, valid, prio);
    } else {
      ReturnOther(sys, mid, sys', t, updates, valid, prio, u);
    }
  }

  lemma ReturnedState(sys: Sys, t: TaskId)
    requires Inv(sys) && sys.mbox != [] && sys.mbox[0] == Return(t) && t < |sys.tasks|
    ensures sys.tasks[t].state in {READY, BLOCKED, ZOMBIE} && sys.tasks[t].place == ReturnMsg
  {
    TaskAt(sys, t);
    assert sys.mbox[0] in multiset(sys.mbox);
  }

  lemma QueuedIff(sys: Sys, u: TaskId)
    requires Inv(sys) && u < |sys.tasks|
    ensures u in sys.ready <==> sys.tasks[u].place == Queue
    ensures sys.tasks[u].state == INQUEUE <==> sys.tasks[u].place == Queue
  {
    TaskAt(sys, u);
    assert u in sys.ready <==> u in multiset(sys.ready);
  }

  lemma ReturnOther(sys: Sys, mid: Sys, sys': Sys, t: TaskId, updates: seq<Update>, valid: bool, prio: int, u: TaskId)
    requires Inv(sys) && sys.mbox != [] && t < |sys.tasks| && u < |sys.tasks| && u != t
    requires NeighboursDone(Handling(sys, t, sys.tasks[t].(place := Hand)), mid, updates)
    requires Shape(mid) && t < |mid.tasks| && ReturnOutcome(mid, sys', t, valid, prio)
    ensures TurnOne(sys, sys', u)
  {
    var sys1 := Handling(sys, t, sys.tasks[t].(place := Hand));
    QueuedIff(sys, u);
    NeighboursOne(sys1, mid, updates, u);
    ReturnedOthers(mid, sys', t, valid, prio, u);
    MidOne(sys1, mid, sys', u);
    HandlingOne(sys, sys1, sys', u);
  }

  lemma Turn(sys: Sys, updates: seq<Update>, valid: bool, prio: int, u: TaskId)
    requires Inv(sys) && Enabled(sys, MasterStep(updates, valid, prio)) && u < |sys.tasks|
    ensures TurnOne(sys, Unflagged(StepMaster(sys, updates, valid, prio)), u)
  {
    match sys.mbox[0]
    case NewTask(t) => NewTaskOne(sys, t, updates, valid, prio, u);
    case Return(t) => ReturnOne(sys, t, updates, valid, prio, u);
    case Wakeup(t) => WakeupOne(sys, t, updates, valid, prio, u);
    case Request(w) => RequestOne(sys, w, updates, valid, prio, u);
    case Terminate => TerminateLaw(sys, updates, valid, prio);
  }

  // ---------------------------------------------------------------------------
  // Workers and callers

  /** The running task exits. */
  predicate Exits(sys: Sys, a: Action, t: TaskId) {
    a.WorkerStep? && a.choice == Exit && a.w < |sys.worker| && sys.worker[a.w] == Run(t)
  }

  /** The other actions send nothing, leave keys and new tasks alone, and end a task exactly if it exits. */
  ghost predicate OtherOne(sys: Sys, sys': Sys, u: TaskId, exits: bool) {
    && u < |sys.tasks| <= |sys'.tasks| && Key(sys'.info, u) == Key(sys.info, u)
    && (sys'.tasks[u].place == NewMsg ==> sys.tasks[u].place == NewMsg)
    && (sys'.tasks[u].state == ZOMBIE <==> sys.tasks[u].state == ZOMBIE || exits)
  }

  lemma LeaveOne(sys: Sys, w: WorkerId, t: TaskId, choice: Choice, u: TaskId)
    requires w < |sys.worker| && t < |sys.tasks| && u < |sys.tasks| && sys.tasks[t].state == RUNNING && sys.tasks[t].place != NewMsg
    ensures OtherOne(sys, Leave(sys, w, t, choice), u, u == t && choice == Exit)
  {
  }

  lemma HeldOne(sys: Sys, w: WorkerId, choice: Choice, u: TaskId)
    requires Shape(sys) && w < |sys.worker| && WorkerReady(sys, w) && HasTask(sys.worker[w]) && !sys.worker[w].Run?
    requires sys.tasks[sys.worker[w].t].place != NewMsg && u < |sys.tasks|
    requires sys.worker[w].Dispatch? || sys.worker[w].WillBlock? ==> sys.tasks[sys.worker[w].t].state != ZOMBIE
    ensures OtherOne(sys, StepWorker(sys, w, choice), u, false)
  {
  }

  lemma WorkerOne(sys: Sys, w: WorkerId, choice: Choice, u: TaskId)
    requires Inv(sys) && w < |sys.worker| && WorkerReady(sys, w) && u < |sys.tasks|
    ensures OtherOne(sys, StepWorker(sys, w, choice), u, Exits(sys, WorkerStep(w, choice), u))
  {
    if HasTask(sys.worker[w]) {
      RunningTask(sys, w);
      if sys.worker[w].Run? {
        LeaveOne(sys, w, sys.worker[w].t, choice, u);
      } else {
        HeldOne(sys, w, choice, u);
      }
    }
  }

  lemma ActionOne(sys: Sys, a: Action, u: TaskId)
    requires Inv(sys) && Enabled(sys, a) && u < |sys.tasks| && !a.MasterStep?
    ensures OtherOne(sys, Apply(sys, a), u, Exits(sys, a, u))
  {
    match a
    case WorkerStep(w, choice) => WorkerOne(sys, w, choice, u);
    case _ =>
  }

  // ---------------------------------------------------------------------------
  // Runs

  /** The priorities with which tasks were created, in order */
  function Created(acts: seq<Action>): seq<int> {
    if acts == [] then []
    else Created(acts[..|acts| - 1]) + match acts[|acts| - 1] case Spawn(prio) => [prio] case _ => []
  }

  ghost predicate NewAsCreated(sys: Sys, created: seq<int>) {
    && |sys.tasks| == |created|
    && forall t: TaskId :: t < |sys.tasks| && sys.tasks[t].place == NewMsg ==> Key(sys.info, t) == Info(created[t], true)
  }

  lemma TaskCount(sys: Sys, a: Action)
    requires Inv(sys) && Enabled(sys, a)
    ensures |Apply(sys, a).tasks| == |sys.tasks| + if a.Spawn? then 1 else 0
  {
    if a.MasterStep? {
      if |sys.tasks| > 0 {
        Turn(sys, a.updates, a.valid, a.prio, 0);
      }
    } else if |sys.tasks| > 0 && a.WorkerStep? {
      StepWorkerKeeps(sys, a.w, a.choice);
    }
  }

  /** In every run, a task whose creation the master has not yet seen is valid, with the priority it was created with. */
  lemma {:induction false} NewTasksAsCreated(states: seq<Sys>, acts: seq<Action>, i: nat)
    requires IsRun(states, acts) && i < |states|
    ensures NewAsCreated(states[i], Created(acts[..i]))
  {
    if i > 0 {
      NewTasksAsCreated(states, acts, i - 1);
      RunInv(states, acts, i - 1);
      assert acts[..i][..i - 1] == acts[..i - 1] && acts[..i][i - 1] == acts[i - 1];
      NewStep(states[i - 1], acts[i - 1], Created(acts[..i - 1]));
    }
  }

  lemma NewStep(sys: Sys, a: Action, created: seq<int>)
    requires Inv(sys) && Enabled(sys, a) && NewAsCreated(sys, created)
    ensures NewAsCreated(Apply(sys, a), created + match a case Spawn(prio) => [prio] case _ => [])
  {
    TaskCount(sys, a);
    var sys' := Apply(sys, a);
    forall u: TaskId | u < |sys'.tasks| && sys'.tasks[u].place == NewMsg
      ensures Key(sys'.info, u) == Info((created + match a case Spawn(prio) => [prio] case _ => [])[u], true)
    {
      if u < |sys.tasks| {
        if a.MasterStep? {
          Turn(sys, a.updates, a.valid, a.prio, u);
        } else {
          ActionOne(sys, a, u);
        }
      }
    }
  }

  /**
    In every run, with or without a demand limit: a task that the master sends to a worker, on a request,
    after a neighbour's return, on its own return or on its wakeup, is valid then; a new task that is
    sent at once is still as it was created.
   */
  lemma SendsValid(states: seq<Sys>, acts: seq<Action>, i: nat, t: TaskId)
    requires IsRun(states, acts) && i < |acts| && acts[i].MasterStep? && Sends(states[i], states[i + 1], t)
    ensures Key(states[i + 1].info, t).valid
    ensures states[i].tasks[t].place == NewMsg ==>
              t < |Created(acts[..i])| && Key(states[i + 1].info, t) == Info(Created(acts[..i])[t], true)
  {
    RunInv(states, acts, i);
    NewTasksAsCreated(states, acts, i);
    Turn(states[i], acts[i].updates, acts[i].valid, acts[i].prio, t);
  }

  /** t has exited in the run. */
  ghost predicate HasExited(states: seq<Sys>, acts: seq<Action>, t: TaskId, n: nat)
    requires n <= |acts| && |states| > |acts|
  {
    exists i :: 0 <= i < n && Exits(states[i], acts[i], t)
  }

  /** One action, as far as the end of t is concerned */
  ghost predicate EndStep(sys: Sys, a: Action, sys': Sys, t: TaskId) {
    && |sys.tasks| <= |sys'.tasks|
    && (t < |sys.tasks| ==> (sys'.tasks[t].state == ZOMBIE <==> sys.tasks[t].state == ZOMBIE || Exits(sys, a, t)))
    && (t >= |sys.tasks| ==> !Exits(sys, a, t) && (t < |sys'.tasks| ==> sys'.tasks[t].state != ZOMBIE))
  }

  lemma ActionEnds(sys: Sys, a: Action, t: TaskId)
    requires Inv(sys) && Enabled(sys, a)
    ensures EndStep(sys, a, Apply(sys, a), t)
  {
    TaskCount(sys, a);
    if t < |sys.tasks| {
      if a.MasterStep? {
        Turn(sys, a.updates, a.valid, a.prio, t);
      } else {
        ActionOne(sys, a, t);
      }
    } else if Exits(sys, a, t) {
      RunningTask(sys, a.w);
    }
  }

  lemma EndsAt(states: seq<Sys>, acts: seq<Action>, t: TaskId, i: nat)
    requires IsRun(states, acts) && i < |acts|
    ensures EndStep(states[i], acts[i], states[i + 1], t)
  {
    RunInv(states, acts, i);
    ActionEnds(states[i], acts[i], t);
  }

  lemma {:induction false} EndsFold(states: seq<Sys>, acts: seq<Action>, t: TaskId, n: nat)
    requires n <= |acts| < |states| && states[0].tasks == []
    requires forall i :: 0 <= i < n ==> EndStep(states[i], acts[i], states[i + 1], t)
    ensures if t < |states[n].tasks| then states[n].tasks[t].state == ZOMBIE <==> HasExited(states, acts, t, n)
            else !HasExited(states, acts, t, n)
  {
    if n > 0 {
      EndsFold(states, acts, t, n - 1);
      assert EndStep(states[n - 1], acts[n - 1], states[n], t);
      assert HasExited(states, acts, t, n) <==> HasExited(states, acts, t, n - 1) || Exits(states[n - 1], acts[n - 1], t);
    }
  }

  /** In every run, a task is a zombie, and then destroyed, exactly if it has exited. */
  lemma ZombieIffExited(states: seq<Sys>, acts: seq<Action>, t: TaskId)
    requires IsRun(states, acts) && t < |states[|acts|].tasks|
    ensures states[|acts|].tasks[t].state == ZOMBIE <==> HasExited(states, acts, t, |acts|)
    ensures states[|acts|].tasks[t].place == Destroyed ==> HasExited(states, acts, t, |acts|)
  {
    forall i | 0 <= i < |acts| ensures EndStep(states[i], acts[i], states[i + 1], t) {
      EndsAt(states, acts, t, i);
    }
    EndsFold(states, acts, t, |acts|);
    DestroyedIsZombie(states, acts, t);
  }

  lemma DestroyedIsZombie(states: seq<Sys>, acts: seq<Action>, t: TaskId)
    requires IsRun(states, acts) && t < |states[|acts|].tasks|
    ensures states[|acts|].tasks[t].place == Destroyed ==> states[|acts|].tasks[t].state == ZOMBIE
  {
    RunInv(states, acts, |acts|);
    TaskAt(states[|acts|], t);
  }
}
