/**
  What each step of a decentralised worker does, field by field: where the choice of a running task
  takes it, what a wakeup and a message do, which task is fetched, and when a worker ends.
 */
module DecenLaws {
  import opened Decen

  // ---------------------------------------------------------------------------
  // The choice of a running task

  /** The choice sends the task to another worker: a yield under LPEL_MIG_WAIT_PROP, or a check under random migration. */
  predicate Leaves(sys: Sys, w: WorkerId, choice: Choice) {
    match choice
    case Yield(target) => sys.mech == WaitProp && target > 0 && target != w
    case CheckMigrate(target) => sys.mech == Rand && target >= 0 && target != w
    case _ => false
  }

  /** A yield that puts the task back into its worker's queue */
  predicate Requeues(sys: Sys, choice: Choice) { choice.Yield? && !(sys.mech == WaitProp && choice.target > 0) }

  /**
    What becomes of a running task t: gone exactly if it exits, in its worker's queue exactly if it yields
    without leaving, in the slot exactly if the choice sends it to another worker; if it blocks, its one
    wakeup is owed from then on; otherwise it runs on.
   */
  ghost predicate ChoiceOutcome(sys: Sys, sys': Sys, w: WorkerId, t: TaskId, choice: Choice)
    requires w < |sys.workers| == |sys'.workers| && t < |sys.tasks| == |sys'.tasks|
  {
    var x, x', k, k' := sys.tasks[t], sys'.tasks[t], sys.workers[w], sys'.workers[w];
    && (x'.place == Gone <==> choice.Exit?) && (x'.state == ZOMBIE <==> choice.Exit?)
    && (choice.Exit? ==> k' == k.(pc := Drain(t), num := k.num - 1))
    && (x'.place.Queued? <==> Requeues(sys, choice))
    && (Requeues(sys, choice) ==>
          x' == x.(state := READY, place := Queued(w)) && k' == k.(pc := Drain(t), queue := k.queue + multiset{t}))
    && (x'.place.Slot? <==> Leaves(sys, w, choice))
    && (Leaves(sys, w, choice) ==>
          x' == x.(state := READY, wc := choice.target, place := Slot(w)) && k' == k.(pc := BackOnWorker, migrated := Some(t)))
    && (choice.Block? ==> x' == x.(owed := true) && k' == k.(pc := WillBlock(t)))
    && (!choice.Exit? && !Requeues(sys, choice) && !Leaves(sys, w, choice) && !choice.Block? ==> x' == x && k'.pc == Run(t))
  }

  /** No other worker and no other task is touched. */
  ghost predicate OnlyHere(sys: Sys, sys': Sys, w: WorkerId, t: TaskId)
    requires w < |sys.workers| && t < |sys.tasks|
  {
    && |sys'.workers| == |sys.workers| && |sys'.tasks| == |sys.tasks|
    && sys' == sys.(workers := sys.workers[w := sys'.workers[w]], tasks := sys.tasks[t := sys'.tasks[t]])
  }

  lemma ChoiceLaw(sys: Sys, w: WorkerId, choice: Choice, next: TaskId)
    requires Reachable(sys) && Enabled(sys, Step(w, choice, next)) && sys.workers[w].pc.Run?
    ensures var t, sys' := sys.workers[w].pc.t, Apply(sys, Step(w, choice, next));
      && t < |sys.tasks| == |sys'.tasks| && |sys'.workers| == |sys.workers|
      && ChoiceOutcome(sys, sys', w, t, choice)
      && (!choice.Wake? ==> OnlyHere(sys, sys', w, t))
  {
    ReachableInv(sys);
    HeldTask(sys, w);
    var t := sys.workers[w].pc.t;
    if choice.Wake? {
      WakeRunsOn(sys, w, t, choice.u, choice.target);
    } else {
      RunOutcome(sys, w, t, choice);
    }
  }

  lemma RunOutcome(sys: Sys, w: WorkerId, t: TaskId, choice: Choice)
    requires w < |sys.workers| && t < |sys.tasks| && ChoiceOk(sys, choice) && !choice.Wake?
    requires sys.workers[w].pc == Run(t) && sys.tasks[t].place == On(w) && sys.tasks[t].state == RUNNING
    ensures var sys' := RunStep(sys, w, t, choice); OnlyHere(sys, sys', w, t) && ChoiceOutcome(sys, sys', w, t, choice)
  {
  }

  lemma WakeRunsOn(sys: Sys, w: WorkerId, t: TaskId, u: TaskId, target: int)
    requires Inv(sys) && w < |sys.workers| && t < |sys.tasks| && ChoiceOk(sys, Wake(u, target)) && sys.workers[w].pc == Run(t)
    ensures var sys' := WakeTask(sys, w, u, target);
      && |sys'.tasks| == |sys.tasks| && |sys'.workers| == |sys.workers| && u != t
      && sys'.tasks[t] == sys.tasks[t] && sys'.workers[w].pc == Run(t)
  {
    HeldTask(sys, w);
  }

  // ---------------------------------------------------------------------------
  // Making a task ready

  /** sys with worker w and task t replaced */
  function With(sys: Sys, w: WorkerId, k: Worker, t: TaskId, x: Task): Sys
    requires w < |sys.workers| && t < |sys.tasks|
  {
    sys.(workers := sys.workers[w := k], tasks := sys.tasks[t := x])
  }

  /**
    A woken task t on worker w: ready in the queue of w, or, if LpelWorkerMakeTaskReady migrates it,
    ready in an assign message to the target, and no longer counted by w.
   */
  ghost predicate ReadyOutcome(sys: Sys, sys': Sys, w: WorkerId, t: TaskId, target: int)
    requires w < |sys.workers| && t < |sys.tasks| && target < |sys.workers|
  {
    var k, x := sys.workers[w], sys.tasks[t];
    if sys.mech == WaitProp && target > 0 && target != w then
      var l := sys.workers[target];
      sys' == sys.(workers := sys.workers[w := k.(num := k.num - 1)][target := l.(mbox := l.mbox + [Assign(t)])],
                   tasks := sys.tasks[t := x.(state := READY, wc := target, place := AssignMsg(target))])
    else sys' == With(sys, w, k.(queue := k.queue + multiset{t}), t, x.(state := READY, place := Queued(w)))
  }

  lemma MakeTaskReadyLaw(sys: Sys, w: WorkerId, t: TaskId, target: int)
    requires w < |sys.workers| && t < |sys.tasks| && target < |sys.workers|
    ensures ReadyOutcome(sys, MakeTaskReady(sys, w, t, target), w, t, target)
  {
  }

  /** The wakeup of u by a task on w: its own worker makes u ready at once, another one is sent a message. */
  lemma WakeLaw(sys: Sys, w: WorkerId, u: TaskId, target: int)
    requires w < |sys.workers| && u < |sys.tasks| && target < |sys.workers| && sys.tasks[u].wc < |sys.workers|
    ensures var sys', x, y := WakeTask(sys, w, u, target), sys.tasks[u], sys.tasks[u].wc;
      if y == w then ReadyOutcome(SetTask(sys, u, x.(owed := false)), sys', w, u, target)
      else sys' == With(sys, y, sys.workers[y].(mbox := sys.workers[y].mbox + [Wakeup(u)]), u, x.(owed := false))
  {
    MakeTaskReadyLaw(SetTask(sys, u, sys.tasks[u].(owed := false)), w, u, target);
  }

  /** The same for a running task's choice, for an SPMD master between tasks, and from outside */
  lemma WakeupLaw(sys: Sys, a: Action)
    requires Inv(sys) && Enabled(sys, a)
    ensures match a
      case WakeLocal(w, u, target) => ReadyOutcome(SetTask(sys, u, sys.tasks[u].(owed := false)), Apply(sys, a), w, u, target)
      case WakeFromOutside(u) =>
        var y := sys.tasks[u].wc;
        Apply(sys, a) == With(sys, y, sys.workers[y].(mbox := sys.workers[y].mbox + [Wakeup(u)]), u, sys.tasks[u].(owed := false))
      case Step(w, choice, _) =>
        sys.workers[w].pc.Run? && choice.Wake? ==>
          var x, y := sys.tasks[choice.u], sys.tasks[choice.u].wc;
          if y == w then ReadyOutcome(SetTask(sys, choice.u, x.(owed := false)), Apply(sys, a), w, choice.u, choice.target)
          else Apply(sys, a) == With(sys, y, sys.workers[y].(mbox := sys.workers[y].mbox + [Wakeup(choice.u)]), choice.u, x.(owed := false))
      case _ => true
  {
    match a
    case WakeLocal(w, u, target) => WakeLaw(sys, w, u, target);
    case Step(w, choice, _) =>
      if sys.workers[w].pc.Run? && choice.Wake? {
        WakeLaw(sys, w, choice.u, choice.target);
      }
    case _ =>
  }

  // ---------------------------------------------------------------------------
  // Messages

  /** The oldest message m is taken out, and: an assigned task is queued and counted, a woken one made ready, terminate noted. */
  ghost predicate MessageOutcome(sys: Sys, sys': Sys, w: WorkerId, target: int)
    requires w < |sys.workers| && target < |sys.workers| && sys.workers[w].mbox != [] && MsgOk(sys, sys.workers[w].mbox[0])
  {
    var k := sys.workers[w];
    var k1 := k.(mbox := k.mbox[1..]);
    match k.mbox[0]
    case Assign(t) =>
      sys' == With(sys, w, k1.(num := k.num + 1, queue := k.queue + multiset{t}), t, sys.tasks[t].(state := READY, place := Queued(w)))
    case Wakeup(t) => ReadyOutcome(SetWorker(sys, w, k1), sys', w, t, target)
    case Terminate => sys' == SetWorker(sys, w, k1.(terminate := true))
  }

  lemma ProcessLaw(sys: Sys, w: WorkerId, target: int)
    requires w < |sys.workers| && target < |sys.workers| && sys.workers[w].mbox != [] && MsgOk(sys, sys.workers[w].mbox[0])
    ensures MessageOutcome(sys, Process(sys, w, target), w, target)
  {
    var k := sys.workers[w];
    match k.mbox[0]
    case Wakeup(t) => MakeTaskReadyLaw(SetWorker(sys, w, k.(mbox := k.mbox[1..])), w, t, target);
    case Assign(t) => AssignIs(sys, w, t, target);
    case Terminate =>
  }

  /** A worker that waits for a message, or fetches the remaining ones, handles the oldest. */
  lemma MessageLaw(sys: Sys, w: WorkerId, choice: Choice, next: TaskId)
    requires Inv(sys) && Enabled(sys, Step(w, choice, next)) && sys.workers[w].mbox != []
    requires var pc := sys.workers[w].pc; pc.Waiting? || pc.LoopFetch? || pc.Drain?
    ensures Target(choice) < |sys.workers|
    ensures var sys', pc := Apply(sys, Step(w, choice, next)), sys.workers[w].pc;
      exists sys1 :: MessageOutcome(sys, sys1, w, Target(choice)) && |sys1.workers| == |sys.workers|
        && sys' == if pc.Waiting? then Goto(sys1, w, LoopFetch) else sys1
  {
    ProcessLaw(sys, w, Target(choice));
    ProcessStays(sys, w, Target(choice));
    assert MessageOutcome(sys, Process(sys, w, Target(choice)), w, Target(choice));
  }

  // ---------------------------------------------------------------------------
  // The worker's loop

  /** A worker begins a queued task exactly if there is one, and takes just that one out of its queue. */
  lemma FetchLaw(sys: Sys, w: WorkerId, choice: Choice, next: TaskId)
    requires Inv(sys) && Enabled(sys, Step(w, choice, next)) && (sys.workers[w].pc.LoopTop? || sys.workers[w].pc.Pick?)
    ensures var sys', k := Apply(sys, Step(w, choice, next)), sys.workers[w];
      && (k.queue == multiset{} ==> sys' == SetWorker(sys, w, k.(pc := if k.pc.LoopTop? then Waiting else BackOnWorker)))
      && (k.queue != multiset{} ==>
            next in k.queue && next < |sys.tasks| &&
            sys' == With(sys, w, k.(queue := k.queue - multiset{next}, pc := Begin(next)), next, sys.tasks[next].(place := On(w))))
  {
  }

  /** A worker leaves its loop exactly when its mailbox is empty, it has no task, and it has been told to terminate. */
  lemma EndsIff(sys: Sys, w: WorkerId, choice: Choice, next: TaskId)
    requires Inv(sys) && Enabled(sys, Step(w, choice, next))
    ensures |Apply(sys, Step(w, choice, next)).workers| == |sys.workers|
    ensures Apply(sys, Step(w, choice, next)).workers[w].pc.Ended? <==>
              var k := sys.workers[w]; k.pc.LoopFetch? && k.mbox == [] && k.num == 0 && k.terminate
  {
    var k := sys.workers[w];
    if (k.pc.Waiting? || k.pc.LoopFetch? || k.pc.Drain?) && k.mbox != [] {
      ProcessStays(sys, w, Target(choice));
    } else if k.pc.Run? {
      RunsOrLeaves(sys, w, choice, next);
    } else if k.pc.LoopTop? || k.pc.Pick? {
      FetchLaw(sys, w, choice, next);
    }
  }

  lemma RunsOrLeaves(sys: Sys, w: WorkerId, choice: Choice, next: TaskId)
    requires Inv(sys) && Enabled(sys, Step(w, choice, next)) && sys.workers[w].pc.Run?
    ensures var sys' := Apply(sys, Step(w, choice, next)); |sys'.workers| == |sys.workers| && !sys'.workers[w].pc.Ended?
  {
    HeldTask(sys, w);
    if choice.Wake? {
      WakeRunsOn(sys, w, sys.workers[w].pc.t, choice.u, choice.target);
    }
  }

  /** Where the rest of a worker's steps lead */
  lemma LoopLaw(sys: Sys, w: WorkerId, choice: Choice, next: TaskId)
    requires Inv(sys) && Enabled(sys, Step(w, choice, next))
    ensures var sys', k := Apply(sys, Step(w, choice, next)), sys.workers[w];
      match k.pc
      case Begin(t) => sys' == With(sys, w, k.(pc := Run(t)), t, sys.tasks[t].(state := RUNNING))
      case WillBlock(t) => sys' == With(sys, w, k.(pc := Drain(t)), t, sys.tasks[t].(state := BLOCKED, place := Blocked(w)))
      case LoopFetch => k.mbox == [] && !(k.num == 0 && k.terminate) ==> sys' == SetWorker(sys, w, k.(pc := LoopTop))
      case Drain(t) => k.mbox == [] ==> sys' == SetWorker(sys, w, k.(pc := Pick(t)))
      case BackOnWorker => k.migrated == None ==> sys' == SetWorker(sys, w, k.(pc := LoopFetch))
      case Uncount => sys' == SetWorker(sys, w, k.(pc := LoopFetch, num := k.num - 1))
      case _ => true
  {
  }

  /** A migrated task is sent to its new worker. */
  lemma SendOffLaw(sys: Sys, w: WorkerId, choice: Choice, next: TaskId)
    requires Inv(sys) && Enabled(sys, Step(w, choice, next)) && sys.workers[w].pc.BackOnWorker? && sys.workers[w].migrated.Some?
    ensures var sys', k := Apply(sys, Step(w, choice, next)), sys.workers[w];
      var t := k.migrated.t; var y := sys.tasks[t].wc; var l := sys.workers[y];
      && y != w
      && sys' == sys.(workers := sys.workers[w := k.(pc := Uncount, migrated := None)][y := l.(mbox := l.mbox + [Assign(t)])],
                      tasks := sys.tasks[t := sys.tasks[t].(place := AssignMsg(y))])
  {
    InSlot(sys, w, sys.workers[w].migrated.t);
  }

  /** What callers do: create a task, start it on its worker, tell a worker to terminate. */
  lemma CallerLaw(sys: Sys, a: Action)
    requires Enabled(sys, a)
    ensures match a
      case Create(w) => Apply(sys, a) == sys.(tasks := sys.tasks + [Task(CREATED, w, false, Unstarted)])
      case Start(t) =>
        var y := sys.tasks[t].wc;
        Apply(sys, a) == With(sys, y, sys.workers[y].(mbox := sys.workers[y].mbox + [Assign(t)]), t, sys.tasks[t].(place := AssignMsg(y)))
      case SendTerminate(w) => Apply(sys, a) == SetWorker(sys, w, sys.workers[w].(mbox := sys.workers[w].mbox + [Terminate]))
      case _ => true
  {
  }
}
