/**
  Stacks of tasks on decentralised workers (decen_worker.c). The dispatcher runs on the stack of the
  task that called it, so that task must not be begun elsewhere before the dispatcher has switched
  away. This module follows the task and its stack through one step and through a run.
 */
module DecenStack {
  import opened Decen
  import opened DecenRuns

  /** The dispatcher of w runs on the stack of a task that is blocked on w, queued there, or gone. */
  predicate Home(sys: Sys, w: WorkerId)
    requires w < |sys.workers|
  {
    var pc := sys.workers[w].pc;
    pc.Drain? || pc.Pick? ==> pc.t < |sys.tasks| && sys.tasks[pc.t].place in {Blocked(w), Queued(w), Gone}
  }

  /**
    The action makes ready the very task on whose stack the dispatcher of w runs, and sends it to
    another worker: only under LPEL_MIG_WAIT_PROP with a target above 0 that is not w.
   */
  predicate SendsOwnTask(sys: Sys, a: Action, w: WorkerId)
    requires Enabled(sys, a) && w < |sys.workers|
  {
    var pc, r := sys.workers[w].pc, Readied(sys, a);
    (pc.Drain? || pc.Pick?) && r.ReadyOn? && r.w == w && r.t == pc.t && Migrates(sys, w, r.target)
  }

  lemma HomeStep(sys: Sys, a: Action, w: WorkerId)
    requires Inv(sys) && Enabled(sys, a) && w < |sys.workers| && Home(sys, w)
    ensures |Apply(sys, a).workers| == |sys.workers|
    ensures Home(Apply(sys, a), w) <==> !SendsOwnTask(sys, a, w)
  {
    WorkerCount(sys, a);
    WorkerAt(sys, w);
    var k := sys.workers[w];
    if OnStack(k.pc) {
      ActionPlaces(sys, a, k.pc.t);
      if HasTask(k.pc) {
        StopsAtHome(sys, a, w);
      } else {
        StaysAtHome(sys, a, w);
      }
    } else {
      NoStackYet(sys, a, w);
    }
  }

  lemma NoStackYet(sys: Sys, a: Action, w: WorkerId)
    requires Inv(sys) && Enabled(sys, a) && w < |sys.workers| && !OnStack(sys.workers[w].pc)
    ensures w < |Apply(sys, a).workers| && Home(Apply(sys, a), w)
  {
    WorkerCount(sys, a);
    if |sys.tasks| > 0 {
      ActionPlaces(sys, a, 0);
    } else {
      WorkerAt(sys, w);
    }
  }

  /** The task on w stops: it is blocked, queued or gone. */
  lemma StopsAtHome(sys: Sys, a: Action, w: WorkerId)
    requires Inv(sys) && Enabled(sys, a) && w < |sys.workers| && HasTask(sys.workers[w].pc)
    ensures w < |Apply(sys, a).workers| && Home(Apply(sys, a), w)
  {
    HeldTask(sys, w);
    var t, sys' := sys.workers[w].pc.t, Apply(sys, a);
    ActionPlaces(sys, a, t);
    ApplyInv(sys, a);
    NotSent(sys, a, t);
    TaskAt(sys', t);
    assert At(t, sys'.tasks[t], w, sys'.workers[w]);
    WorkerAt(sys', w);
  }

  /** A task on a worker is not sent. */
  lemma NotSent(sys: Sys, a: Action, t: TaskId)
    requires Inv(sys) && Enabled(sys, a) && t < |sys.tasks| && sys.tasks[t].place.On?
    ensures forall y: WorkerId :: y < |sys.workers| ==> !Sends(sys, a, t, y)
  {
    forall y: WorkerId | y < |sys.workers| && Sends(sys, a, t, y) ensures false {
      SentFrom(sys, a, t, y);
    }
  }

  lemma StaysAtHome(sys: Sys, a: Action, w: WorkerId)
    requires Inv(sys) && Enabled(sys, a) && w < |sys.workers| && Home(sys, w)
    requires sys.workers[w].pc.Drain? || sys.workers[w].pc.Pick?
    ensures w < |Apply(sys, a).workers|
    ensures Home(Apply(sys, a), w) <==> !SendsOwnTask(sys, a, w)
  {
    WorkerCount(sys, a);
    if SendsOwnTask(sys, a, w) {
      OwnTaskStays(sys, a, w);
    } else {
      KeptAtHome(sys, a, w);
    }
  }

  lemma KeptAtHome(sys: Sys, a: Action, w: WorkerId)
    requires Inv(sys) && Enabled(sys, a) && w < |sys.workers| && Home(sys, w) && !SendsOwnTask(sys, a, w)
    requires sys.workers[w].pc.Drain? || sys.workers[w].pc.Pick?
    ensures w < |Apply(sys, a).workers| && Home(Apply(sys, a), w)
  {
    var t := sys.workers[w].pc.t;
    OwnTaskKept(sys, a, w);
    ActionPlaces(sys, a, t);
    if Apply(sys, a).workers[w].pc == Drain(t) || Apply(sys, a).workers[w].pc == Pick(t) {
      NotOnNow(sys, a, w, t);
    }
  }

  lemma OwnTaskKept(sys: Sys, a: Action, w: WorkerId)
    requires Inv(sys) && Enabled(sys, a) && w < |sys.workers| && Home(sys, w) && !SendsOwnTask(sys, a, w)
    requires sys.workers[w].pc.Drain? || sys.workers[w].pc.Pick?
    ensures forall y: WorkerId :: y < |sys.workers| ==> !Sends(sys, a, sys.workers[w].pc.t, y)
  {
    var t := sys.workers[w].pc.t;
    forall y: WorkerId | y < |sys.workers| && Sends(sys, a, t, y) ensures false {
      SentFrom(sys, a, t, y);
      ReadiedHere(sys, a, t, y);
    }
  }

  /** A dispatcher's task is neither at work on w nor in w's slot. */
  lemma NotOnNow(sys: Sys, a: Action, w: WorkerId, t: TaskId)
    requires Inv(sys) && Enabled(sys, a) && w < |Apply(sys, a).workers| && t < |Apply(sys, a).tasks|
    requires Apply(sys, a).workers[w].pc == Drain(t) || Apply(sys, a).workers[w].pc == Pick(t)
    ensures Apply(sys, a).tasks[t].place !in {On(w), Slot(w)}
  {
    ApplyInv(sys, a);
    var sys' := Apply(sys, a);
    TaskAt(sys', t);
    WorkerAt(sys', w);
    assert At(t, sys'.tasks[t], w, sys'.workers[w]);
  }

  lemma ReadiedHere(sys: Sys, a: Action, t: TaskId, y: WorkerId)
    requires Inv(sys) && Enabled(sys, a) && t < |sys.tasks| && y < |sys.workers| && Sends(sys, a, t, y)
    requires sys.tasks[t].place.Blocked?
    ensures Readied(sys, a) == ReadyOn(sys.tasks[t].place.w, t, y) && Migrates(sys, sys.tasks[t].place.w, y)
  {
    TaskAt(sys, t);
    if a.Step? && SendsSlot(sys.workers[a.w], t) {
      InSlot(sys, a.w, t);
    }
    ReadiedBlocked(sys, a);
  }

  /** The dispatcher goes on on the stack of the task it has sent off. */
  lemma OwnTaskStays(sys: Sys, a: Action, w: WorkerId)
    requires Inv(sys) && Enabled(sys, a) && w < |sys.workers| && SendsOwnTask(sys, a, w)
    ensures var t, sys', y := sys.workers[w].pc.t, Apply(sys, a), Readied(sys, a).target;
      && w < |sys'.workers| && sys'.workers[w].pc == sys.workers[w].pc && 0 < y < |sys.workers|
      && t < |sys'.tasks| && sys'.tasks[t].place == AssignMsg(y) && y != w
  {
    var t, y := sys.workers[w].pc.t, Readied(sys, a).target;
    WorkerAt(sys, w);
    ReadiedBlocked(sys, a);
    match a
    case WakeLocal(_, u, target) => WakePlaces(sys, w, u, target, t);
    case Step(_, choice, _) => ProcessPlaces(sys, w, Target(choice), t);
  }

  // ---------------------------------------------------------------------------
  // Whole runs

  /** Two workers run on the stack of t. */
  predicate Shared(sys: Sys, t: TaskId, v: WorkerId, w: WorkerId) {
    && v != w && v < |sys.workers| && w < |sys.workers|
    && OnStack(sys.workers[v].pc) && sys.workers[v].pc.t == t
    && OnStack(sys.workers[w].pc) && sys.workers[w].pc.t == t
  }

  ghost predicate Safe(sys: Sys) {
    && (forall w: WorkerId :: w < |sys.workers| ==> Home(sys, w))
    && (forall t, v, w :: !Shared(sys, t, v, w))
  }

  /** Throughout the run no dispatcher sends its own task away. */
  ghost predicate KeepsOwnTasks(sys: Sys, acts: seq<Action>)
    requires Legal(sys, acts)
    decreases |acts|
  {
    acts == [] ||
    ((forall w: WorkerId :: w < |sys.workers| ==> !SendsOwnTask(sys, acts[0], w)) && KeepsOwnTasks(Apply(sys, acts[0]), acts[1..]))
  }

  /** A stack that w gets on is that of a task queued on w. */
  lemma GetsOn(sys: Sys, a: Action, w: WorkerId)
    requires Inv(sys) && Enabled(sys, a) && w < |sys.workers| && w < |Apply(sys, a).workers|
    requires OnStack(Apply(sys, a).workers[w].pc)
    ensures var k, t := sys.workers[w], Apply(sys, a).workers[w].pc.t;
      && ((OnStack(k.pc) && k.pc.t == t) || (a.Step? && a.w == w && t < |sys.tasks| && sys.tasks[t].place == Queued(w)))
  {
    if |sys.tasks| > 0 {
      ActionPlaces(sys, a, 0);
    } else {
      WorkerAt(sys, w);
    }
  }

  /** The task of a worker's stack is on the worker, or at home on it, or gone. */
  lemma StackPlace(sys: Sys, w: WorkerId)
    requires Inv(sys) && w < |sys.workers| && OnStack(sys.workers[w].pc) && Home(sys, w)
    ensures var t := sys.workers[w].pc.t;
      t < |sys.tasks| && sys.tasks[t].place in {On(w), Blocked(w), Queued(w), Gone}
  {
    if HasTask(sys.workers[w].pc) {
      HeldTask(sys, w);
    }
  }

  lemma SafeStep(sys: Sys, a: Action)
    requires Inv(sys) && Safe(sys) && Enabled(sys, a)
    requires forall w: WorkerId :: w < |sys.workers| ==> !SendsOwnTask(sys, a, w)
    ensures Safe(Apply(sys, a))
  {
    var sys' := Apply(sys, a);
    WorkerCount(sys, a);
    forall w: WorkerId | w < |sys'.workers| ensures Home(sys', w) {
      HomeStep(sys, a, w);
    }
    forall t, v, w ensures !Shared(sys', t, v, w) {
      if Shared(sys', t, v, w) {
        NotShared(sys, a, t, v, w);
      }
    }
  }

  lemma NotShared(sys: Sys, a: Action, t: TaskId, v: WorkerId, w: WorkerId)
    requires Inv(sys) && Safe(sys) && Enabled(sys, a) && |Apply(sys, a).workers| == |sys.workers|
    ensures !Shared(Apply(sys, a), t, v, w)
  {
    if Shared(Apply(sys, a), t, v, w) {
      GetsOn(sys, a, v);
      GetsOn(sys, a, w);
      assert !Shared(sys, t, v, w);
      if OnStack(sys.workers[v].pc) && sys.workers[v].pc.t == t {
        StackPlace(sys, v);
      } else if OnStack(sys.workers[w].pc) && sys.workers[w].pc.t == t {
        StackPlace(sys, w);
      }
    }
  }

  lemma {:induction false} SafeRun(sys: Sys, acts: seq<Action>)
    requires Inv(sys) && Safe(sys) && Legal(sys, acts) && KeepsOwnTasks(sys, acts)
    ensures Inv(After(sys, acts)) && Safe(After(sys, acts))
    decreases |acts|
  {
    if acts != [] {
      ApplyInv(sys, acts[0]);
      SafeStep(sys, acts[0]);
      SafeRun(Apply(sys, acts[0]), acts[1..]);
    }
  }

  /** Without migration, or with random migration, every run is of that kind. */
  lemma {:induction false} MechanismKeeps(sys: Sys, acts: seq<Action>)
    requires Legal(sys, acts) && sys.mech != WaitProp
    ensures KeepsOwnTasks(sys, acts)
    decreases |acts|
  {
    if acts != [] {
      WorkerCount(sys, acts[0]);
      MechanismKeeps(Apply(sys, acts[0]), acts[1..]);
    }
  }

  // ---------------------------------------------------------------------------
  // From there on the task can be begun elsewhere

  /** t is on its way to be begun on v: in its mailbox, or in its queue with v about to look there. */
  predicate Coming(sys: Sys, t: TaskId, v: WorkerId) {
    && t < |sys.tasks| && v < |sys.workers|
    && var p, pc := sys.tasks[t].place, sys.workers[v].pc;
    (p == AssignMsg(v) && !pc.Ended?) || (p == Queued(v) && (pc.LoopFetch? || pc.Drain? || pc.LoopTop? || pc.Pick?))
  }

  /** Steps until v handles the next message, or, with t queued, fetches t */
  function Distance(pc: Pc, queued: bool): nat {
    match pc
    case LoopTop => if queued then 1 else 3
    case Pick(_) => if queued then 1 else 3
    case Begin(_) => 2
    case BackOnWorker => 2
    case Run(_) => 1
    case WillBlock(_) => 1
    case Uncount => 1
    case _ => if queued then 2 else 0
  }

  /** A step of v that has begun t, or brought it nearer; no other worker moves. */
  ghost predicate Nearer(sys: Sys, sys': Sys, t: TaskId, v: WorkerId)
    requires Coming(sys, t, v)
  {
    && |sys'.workers| == |sys.workers|
    && (forall w: WorkerId :: w < |sys.workers| && w != v ==> sys'.workers[w].pc == sys.workers[w].pc)
    && (sys'.workers[v].pc == Begin(t) ||
        (Coming(sys', t, v) &&
         var k, k' := sys.workers[v], sys'.workers[v];
         var d, d' := Distance(k.pc, sys.tasks[t].place.Queued?), Distance(k'.pc, sys'.tasks[t].place.Queued?);
         |k'.mbox| < |k.mbox| || (|k'.mbox| == |k.mbox| && d' < d)))
  }

  lemma ProcessHere(sys: Sys, v: WorkerId)
    requires v < |sys.workers| && sys.workers[v].mbox != [] && MsgOk(sys, sys.workers[v].mbox[0])
    ensures Process(sys, v, -1).workers[v].mbox == sys.workers[v].mbox[1..]
  {
  }

  lemma NearerFetch(sys: Sys, t: TaskId, v: WorkerId)
    requires Inv(sys) && Coming(sys, t, v) && Fetches(sys.workers[v]) && Enabled(sys, Step(v, Yield(-1), t))
    ensures Nearer(sys, Apply(sys, Step(v, Yield(-1), t)), t, v)
  {
    ProcessPlaces(sys, v, -1, t);
    ProcessHere(sys, v);
  }

  /** An empty mailbox: t is queued. */
  lemma QueuedHere(sys: Sys, t: TaskId, v: WorkerId)
    requires Inv(sys) && Coming(sys, t, v) && sys.workers[v].mbox == []
    ensures sys.tasks[t].place == Queued(v) && t in sys.workers[v].queue && sys.workers[v].num > 0
  {
    TaskAt(sys, t);
    assert At(t, sys.tasks[t], v, sys.workers[v]);
    LocatedCounted(sys, v, t);
  }

  lemma NearerLoop(sys: Sys, t: TaskId, v: WorkerId)
    requires Inv(sys) && Coming(sys, t, v) && sys.workers[v].mbox == [] && Enabled(sys, Step(v, Yield(-1), t))
    requires sys.workers[v].pc.LoopFetch? || sys.workers[v].pc.Drain?
    ensures Nearer(sys, Apply(sys, Step(v, Yield(-1), t)), t, v)
  {
    QueuedHere(sys, t, v);
  }

  lemma NearerPick(sys: Sys, t: TaskId, v: WorkerId, next: TaskId)
    requires Inv(sys) && Coming(sys, t, v) && Enabled(sys, Step(v, Yield(-1), next))
    requires sys.workers[v].pc.LoopTop? || sys.workers[v].pc.Pick?
    requires t in sys.workers[v].queue ==> next == t
    ensures Nearer(sys, Apply(sys, Step(v, Yield(-1), next)), t, v)
  {
    QueuedIff(sys, t, v);
    if sys.workers[v].queue != multiset{} && next != t {
      assert Apply(sys, Step(v, Yield(-1), next)).tasks[t] == sys.tasks[t];
    }
  }

  lemma QueuedIff(sys: Sys, t: TaskId, v: WorkerId)
    requires Inv(sys) && t < |sys.tasks| && v < |sys.workers|
    ensures t in sys.workers[v].queue <==> sys.tasks[t].place == Queued(v)
  {
    TaskAt(sys, t);
    assert At(t, sys.tasks[t], v, sys.workers[v]);
  }

  lemma NearerRun(sys: Sys, t: TaskId, v: WorkerId)
    requires Inv(sys) && Coming(sys, t, v) && HasTask(sys.workers[v].pc) && Enabled(sys, Step(v, Yield(-1), t))
    ensures Nearer(sys, Apply(sys, Step(v, Yield(-1), t)), t, v)
  {
    HeldTask(sys, v);
  }

  lemma NearerBack(sys: Sys, t: TaskId, v: WorkerId)
    requires Inv(sys) && Coming(sys, t, v) && Enabled(sys, Step(v, Yield(-1), t))
    requires sys.workers[v].pc.BackOnWorker? || sys.workers[v].pc.Uncount?
    ensures Nearer(sys, Apply(sys, Step(v, Yield(-1), t)), t, v)
  {
    if sys.workers[v].migrated.Some? {
      SlotPlaces(sys, v, sys.workers[v].migrated.t, t);
    }
  }

  lemma CanStep(sys: Sys, t: TaskId, v: WorkerId) returns (next: TaskId)
    requires Inv(sys) && Coming(sys, t, v)
    ensures Enabled(sys, Step(v, Yield(-1), next)) && (t in sys.workers[v].queue ==> next == t)
    ensures !(sys.workers[v].pc.LoopTop? || sys.workers[v].pc.Pick?) ==> next == t
  {
    var k := sys.workers[v];
    WorkerAt(sys, v);
    next := t;
    if (k.pc.LoopTop? || k.pc.Pick?) && t !in k.queue && k.queue != multiset{} {
      next :| next in k.queue;
    }
    if k.mbox == [] && k.pc.Waiting? {
      QueuedHere(sys, t, v);
    }
    if k.migrated.Some? {
      InSlot(sys, v, k.migrated.t);
    }
  }

  lemma NearerStep(sys: Sys, t: TaskId, v: WorkerId) returns (a: Action)
    requires Inv(sys) && Coming(sys, t, v)
    ensures Enabled(sys, a) && Nearer(sys, Apply(sys, a), t, v)
  {
    var next := CanStep(sys, t, v);
    a := Step(v, Yield(-1), next);
    var k := sys.workers[v];
    if k.pc.LoopTop? || k.pc.Pick? {
      NearerPick(sys, t, v, next);
    } else if HasTask(k.pc) {
      NearerRun(sys, t, v);
    } else if Fetches(k) {
      NearerFetch(sys, t, v);
    } else if k.pc.LoopFetch? || k.pc.Drain? {
      NearerLoop(sys, t, v);
    } else {
      NearerBack(sys, t, v);
    }
  }

  /** v alone can go on until it begins t. */
  lemma {:induction false} CanBegin(sys: Sys, t: TaskId, v: WorkerId) returns (acts: seq<Action>)
    requires Inv(sys) && Coming(sys, t, v)
    ensures Legal(sys, acts) && |After(sys, acts).workers| == |sys.workers| && After(sys, acts).workers[v].pc == Begin(t)
    ensures forall w: WorkerId :: w < |sys.workers| && w != v ==> After(sys, acts).workers[w].pc == sys.workers[w].pc
    decreases |sys.workers[v].mbox|, Distance(sys.workers[v].pc, sys.tasks[t].place.Queued?)
  {
    var a := NearerStep(sys, t, v);
    var sys' := Apply(sys, a);
    ApplyInv(sys, a);
    var rest := [];
    if sys'.workers[v].pc != Begin(t) {
      rest := CanBegin(sys', t, v);
    }
    acts := [a] + rest;
    assert acts[1..] == rest;
  }

  /** A stranded task that runs nowhere else is never begun again. */
  lemma {:induction false} StrandedAlone(sys: Sys, acts: seq<Action>, t: TaskId, v: WorkerId)
    requires Inv(sys) && Stranded(sys, t) && Legal(sys, acts) && v < |sys.workers|
    requires !(OnStack(sys.workers[v].pc) && sys.workers[v].pc.t == t)
    ensures v < |After(sys, acts).workers| && !(OnStack(After(sys, acts).workers[v].pc) && After(sys, acts).workers[v].pc.t == t)
    decreases |acts|
  {
    if acts != [] {
      var sys' := Apply(sys, acts[0]);
      ApplyInv(sys, acts[0]);
      StrandedForever(sys, acts[0], t);
      WorkerCount(sys, acts[0]);
      if OnStack(sys'.workers[v].pc) {
        GetsOn(sys, acts[0], v);
      }
      StrandedAlone(sys', acts[1..], t, v);
    }
  }

  /** Where the workers other than w run is not touched when w sends its own task away. */
  lemma OthersStay(sys: Sys, a: Action, w: WorkerId, v: WorkerId)
    requires Inv(sys) && Enabled(sys, a) && w < |sys.workers| && v < |sys.workers| && v != w && SendsOwnTask(sys, a, w)
    ensures v < |Apply(sys, a).workers| && Apply(sys, a).workers[v].pc == sys.workers[v].pc
  {
    WorkerAt(sys, w);
    ActionPlaces(sys, a, sys.workers[w].pc.t);
  }

  lemma {:induction false} AfterCount(sys: Sys, acts: seq<Action>)
    requires Legal(sys, acts)
    ensures |After(sys, acts).workers| == |sys.workers|
    decreases |acts|
  {
    if acts != [] {
      WorkerCount(sys, acts[0]);
      AfterCount(Apply(sys, acts[0]), acts[1..]);
    }
  }
}
