/**
  Every run of the decentralised workers: what one action does to the place of a task, and when a
  task is sent to a worker that has left its loop, where it stays for ever.
 */
module DecenRuns {
  import opened Decen

  // ---------------------------------------------------------------------------
  // What one action does to the place of a task

  /** The task that an action makes ready through LpelWorkerMakeTaskReady, on which worker, with what target */
  datatype Readying = Nobody | ReadyOn(w: WorkerId, t: TaskId, target: int)

  function Readied(sys: Sys, a: Action): Readying
    requires Enabled(sys, a)
  {
    match a
    case WakeLocal(w, u, target) => ReadyOn(w, u, target)
    case Step(w, choice, _) =>
      var k := sys.workers[w];
      if Fetches(k) && k.mbox[0].Wakeup? then ReadyOn(w, k.mbox[0].t, Target(choice))
      else if k.pc.Run? && choice.Wake? && sys.tasks[choice.u].wc == w then ReadyOn(w, choice.u, choice.target)
      else Nobody
    case _ => Nobody
  }

  /** The worker's next step handles a message. */
  predicate Fetches(k: Worker) { (k.pc.Waiting? || k.pc.LoopFetch? || k.pc.Drain?) && k.mbox != [] }

  /** The worker's next step sends off a migrated task. */
  predicate SendsSlot(k: Worker, t: TaskId) { k.pc.BackOnWorker? && k.migrated == Some(t) }

  /**
    The action sends t to worker y: LpelTaskStart, the worker loop with a migrated task, or
    LpelWorkerMakeTaskReady with migration.
   */
  predicate Sends(sys: Sys, a: Action, t: TaskId, y: WorkerId)
    requires Enabled(sys, a) && t < |sys.tasks|
  {
    || (a == Start(t) && sys.tasks[t].wc == y)
    || (a.Step? && SendsSlot(sys.workers[a.w], t) && sys.tasks[t].wc == y)
    || (Readied(sys, a).ReadyOn? && Readied(sys, a).t == t && Migrates(sys, Readied(sys, a).w, y) && Readied(sys, a).target == y)
  }

  /** A move on one worker */
  predicate Local(p: Place, p': Place, w: WorkerId) {
    || (p in {AssignMsg(w), Blocked(w)} && p' == Queued(w))
    || (p == Queued(w) && p' == On(w))
    || (p == On(w) && p' in {Queued(w), Blocked(w), Slot(w), Gone})
  }

  function Actor(a: Action): WorkerId {
    match a
    case Step(w, _, _) => w
    case WakeLocal(w, _, _) => w
    case _ => 0
  }

  /** The new place of t: sent to some worker, moved on the worker that acts, or as before */
  predicate PlaceStep(sys: Sys, a: Action, t: TaskId, p': Place)
    requires Enabled(sys, a) && t < |sys.tasks|
  {
    var p := sys.tasks[t].place;
    if p' == p then forall y: nat :: y < |sys.workers| ==> !Sends(sys, a, t, y)
    else if p'.AssignMsg? then Sends(sys, a, t, p'.w) && !p.AssignMsg?
    else Local(p, p', Actor(a)) && forall y: nat :: y < |sys.workers| ==> !Sends(sys, a, t, y)
  }

  lemma ReadyPlaces(sys: Sys, w: WorkerId, u: TaskId, target: int, t: TaskId)
    requires w < |sys.workers| && u < |sys.tasks| && target < |sys.workers| && t < |sys.tasks|
    ensures var sys' := MakeTaskReady(sys, w, u, target);
      && |sys'.tasks| == |sys.tasks| && |sys'.workers| == |sys.workers|
      && (forall v :: 0 <= v < |sys.workers| ==> sys'.workers[v].pc == sys.workers[v].pc && sys'.workers[v].terminate == sys.workers[v].terminate)
      && sys'.tasks[t].place
           == if t != u then sys.tasks[t].place else if Migrates(sys, w, target) then AssignMsg(target) else Queued(w)
  {
  }

  lemma WakePlaces(sys: Sys, w: WorkerId, u: TaskId, target: int, t: TaskId)
    requires Inv(sys) && w < |sys.workers| && u < |sys.tasks| && target < |sys.workers| && t < |sys.tasks|
    requires sys.tasks[u].owed && sys.tasks[u].wc < |sys.workers| && (sys.tasks[u].wc == w ==> !Holds(sys.workers[w].pc, u))
    ensures var sys' := WakeTask(sys, w, u, target);
      && |sys'.tasks| == |sys.tasks| && |sys'.workers| == |sys.workers|
      && (forall v :: 0 <= v < |sys.workers| ==> sys'.workers[v].pc == sys.workers[v].pc && sys'.workers[v].terminate == sys.workers[v].terminate)
      && (sys.tasks[u].wc == w ==> sys.tasks[u].place == Blocked(w))
      && sys'.tasks[t].place
           == if t != u || sys.tasks[u].wc != w then sys.tasks[t].place
              else if Migrates(sys, w, target) then AssignMsg(target) else Queued(w)
  {
    if sys.tasks[u].wc == w {
      OwedIsBlocked(sys, w, u);
      ReadyPlaces(SetTask(sys, u, sys.tasks[u].(owed := false)), w, u, target, t);
    }
  }

  lemma ProcessPlaces(sys: Sys, w: WorkerId, target: int, t: TaskId)
    requires Inv(sys) && w < |sys.workers| && sys.workers[w].mbox != [] && target < |sys.workers| && t < |sys.tasks|
    requires MsgOk(sys, sys.workers[w].mbox[0]) && !HasTask(sys.workers[w].pc)
    ensures var sys', m := Process(sys, w, target), sys.workers[w].mbox[0];
      && |sys'.tasks| == |sys.tasks| && |sys'.workers| == |sys.workers|
      && (forall v :: 0 <= v < |sys.workers| ==> sys'.workers[v].pc == sys.workers[v].pc && (sys.workers[v].terminate ==> sys'.workers[v].terminate))
      && (m == Wakeup(t) ==> sys.tasks[t].place == Blocked(w)) && (m == Assign(t) ==> sys.tasks[t].place == AssignMsg(w))
      && sys'.tasks[t].place
           == if m == Assign(t) || (m == Wakeup(t) && !Migrates(sys, w, target)) then Queued(w)
              else if m == Wakeup(t) then AssignMsg(target) else sys.tasks[t].place
  {
    var k := sys.workers[w];
    match k.mbox[0] {
      case Wakeup(u) =>
        WakeupMsg(sys, w, u);
        ReadyPlaces(SetWorker(sys, w, k.(mbox := k.mbox[1..])), w, u, target, t);
      case Assign(u) =>
        AssignMsg1(sys, w, u);
        AssignIs(sys, w, u, target);
      case Terminate =>
    }
  }

  /** What a step of worker w leaves alone, and where it goes on */
  predicate PcStep(sys: Sys, w: WorkerId, sys': Sys)
    requires w < |sys.workers|
  {
    && |sys'.workers| == |sys.workers| && |sys'.tasks| == |sys.tasks|
    && (forall v :: 0 <= v < |sys.workers| && v != w ==> sys'.workers[v].pc == sys.workers[v].pc)
    && var k, pc' := sys.workers[w], sys'.workers[w].pc;
    && (pc'.Ended? && !k.pc.Ended? ==> k.mbox == [] && sys'.workers[w] == k.(pc := Ended))
    && (k.pc.Ended? ==> pc'.Ended?)
    && (pc'.Drain? || pc'.Pick? ==> OnStack(k.pc) && k.pc.t == pc'.t)
    && (HasTask(pc') ==> (HasTask(k.pc) && k.pc.t == pc'.t) || (pc'.Begin? && pc'.t < |sys.tasks| && sys.tasks[pc'.t].place == Queued(w)))
  }

  lemma FetchStep(sys: Sys, w: WorkerId, next: TaskId, otherwise: Pc, t: TaskId)
    requires Inv(sys) && w < |sys.workers| && Picks(sys.workers[w], next, |sys.tasks|) && t < |sys.tasks|
    requires !sys.workers[w].pc.Ended? && (otherwise.Waiting? || otherwise.BackOnWorker?)
    ensures var sys' := Fetch(sys, w, next, otherwise);
      PcStep(sys, w, sys') && (sys'.tasks[t].place == sys.tasks[t].place || Local(sys.tasks[t].place, sys'.tasks[t].place, w))
  {
    if sys.workers[w].queue != multiset{} {
      TaskAt(sys, next);
      assert At(next, sys.tasks[next], w, sys.workers[w]);
    }
  }

  /** A task at work, or on its way from run to block */
  lemma RunPlaces(sys: Sys, w: WorkerId, choice: Choice, next: TaskId, t: TaskId)
    requires Inv(sys) && w < |sys.workers| && StepOk(sys, w, choice, next) && HasTask(sys.workers[w].pc) && t < |sys.tasks|
    requires sys.workers[w].pc.Run? ==> !choice.Wake?
    ensures var sys' := StepWorker(sys, w, choice, next);
      && PcStep(sys, w, sys')
      && (sys'.tasks[t].place == sys.tasks[t].place || Local(sys.tasks[t].place, sys'.tasks[t].place, w))
  {
    HeldTask(sys, w);
  }

  lemma SlotPlaces(sys: Sys, w: WorkerId, s: TaskId, t: TaskId)
    requires Inv(sys) && w < |sys.workers| && sys.workers[w].migrated == Some(s) && t < |sys.tasks|
    ensures s < |sys.tasks| && sys.tasks[s].wc < |sys.workers| && sys.tasks[s].place == Slot(w) && sys.tasks[s].wc != w
    ensures var sys' := SendOff(sys, w, s);
      && |sys'.tasks| == |sys.tasks| && |sys'.workers| == |sys.workers| && sys'.workers[w].pc == Uncount
      && (forall v :: 0 <= v < |sys.workers| && v != w ==> sys'.workers[v].pc == sys.workers[v].pc)
      && sys'.tasks[t].place == if t == s then AssignMsg(sys.tasks[s].wc) else sys.tasks[t].place
  {
    InSlot(sys, w, s);
  }

  lemma HandlePlaces(sys: Sys, w: WorkerId, choice: Choice, next: TaskId, t: TaskId)
    requires Inv(sys) && Enabled(sys, Step(w, choice, next)) && t < |sys.tasks| && Fetches(sys.workers[w])
    ensures var sys' := StepWorker(sys, w, choice, next);
      PcStep(sys, w, sys') && PlaceStep(sys, Step(w, choice, next), t, sys'.tasks[t].place)
  {
    HandlePc(sys, w, choice, next, t);
    HandlePlace(sys, w, choice, next, t);
  }

  lemma HandlePc(sys: Sys, w: WorkerId, choice: Choice, next: TaskId, t: TaskId)
    requires Inv(sys) && Enabled(sys, Step(w, choice, next)) && t < |sys.tasks| && Fetches(sys.workers[w])
    ensures PcStep(sys, w, StepWorker(sys, w, choice, next))
  {
    ProcessPlaces(sys, w, Target(choice), t);
  }

  lemma HandlePlace(sys: Sys, w: WorkerId, choice: Choice, next: TaskId, t: TaskId)
    requires Inv(sys) && Enabled(sys, Step(w, choice, next)) && t < |sys.tasks| && Fetches(sys.workers[w])
    ensures t < |StepWorker(sys, w, choice, next).tasks|
    ensures PlaceStep(sys, Step(w, choice, next), t, StepWorker(sys, w, choice, next).tasks[t].place)
  {
    ProcessPlaces(sys, w, Target(choice), t);
    var m, r := sys.workers[w].mbox[0], Readied(sys, Step(w, choice, next));
    assert r == if m.Wakeup? then ReadyOn(w, m.t, Target(choice)) else Nobody;
  }

  lemma RunStepPlaces(sys: Sys, w: WorkerId, choice: Choice, next: TaskId, t: TaskId)
    requires Inv(sys) && Enabled(sys, Step(w, choice, next)) && t < |sys.tasks| && sys.workers[w].pc.Run?
    ensures var sys' := StepWorker(sys, w, choice, next);
      PcStep(sys, w, sys') && PlaceStep(sys, Step(w, choice, next), t, sys'.tasks[t].place)
  {
    if choice.Wake? {
      HeldTask(sys, w);
      WakePlaces(sys, w, choice.u, choice.target, t);
    } else {
      RunPlaces(sys, w, choice, next, t);
    }
  }

  lemma BackPlaces(sys: Sys, w: WorkerId, choice: Choice, next: TaskId, t: TaskId)
    requires Inv(sys) && Enabled(sys, Step(w, choice, next)) && t < |sys.tasks|
    requires sys.workers[w].pc.BackOnWorker? && sys.workers[w].migrated.Some?
    ensures var sys' := StepWorker(sys, w, choice, next);
      PcStep(sys, w, sys') && PlaceStep(sys, Step(w, choice, next), t, sys'.tasks[t].place)
  {
    var s := sys.workers[w].migrated.t;
    SlotPlaces(sys, w, s, t);
    assert StepWorker(sys, w, choice, next) == SendOff(sys, w, s);
    assert Readied(sys, Step(w, choice, next)) == Nobody;
  }

  lemma StepPlaces(sys: Sys, w: WorkerId, choice: Choice, next: TaskId, t: TaskId)
    requires Inv(sys) && Enabled(sys, Step(w, choice, next)) && t < |sys.tasks|
    ensures var sys' := StepWorker(sys, w, choice, next);
      PcStep(sys, w, sys') && PlaceStep(sys, Step(w, choice, next), t, sys'.tasks[t].place)
  {
    var k := sys.workers[w];
    WorkerAt(sys, w);
    if Fetches(k) {
      HandlePlaces(sys, w, choice, next, t);
    } else if k.pc.Run? {
      RunStepPlaces(sys, w, choice, next, t);
    } else if k.pc.BackOnWorker? && k.migrated.Some? {
      BackPlaces(sys, w, choice, next, t);
    } else {
      QuietPlaces(sys, w, choice, next, t);
      assert Readied(sys, Step(w, choice, next)) == Nobody;
    }
  }

  lemma QuietPlaces(sys: Sys, w: WorkerId, choice: Choice, next: TaskId, t: TaskId)
    requires Inv(sys) && Enabled(sys, Step(w, choice, next)) && t < |sys.tasks|
    requires !Fetches(sys.workers[w]) && !sys.workers[w].pc.Run? && sys.workers[w].migrated == None
    ensures var sys' := StepWorker(sys, w, choice, next);
      && PcStep(sys, w, sys')
      && (sys'.tasks[t].place == sys.tasks[t].place || Local(sys.tasks[t].place, sys'.tasks[t].place, w))
  {
    match sys.workers[w].pc {
      case LoopTop => FetchStep(sys, w, next, Waiting, t);
      case Pick(_) => FetchStep(sys, w, next, BackOnWorker, t);
      case Begin(_) => RunPlaces(sys, w, choice, next, t);
      case WillBlock(_) => RunPlaces(sys, w, choice, next, t);
      case _ =>
    }
  }

  /** Where t goes, and how program counters move, in any action */
  lemma ActionPlaces(sys: Sys, a: Action, t: TaskId)
    requires Inv(sys) && Enabled(sys, a) && t < |sys.tasks|
    ensures var sys' := Apply(sys, a);
      && |sys'.workers| == |sys.workers| && t < |sys'.tasks|
      && PlaceStep(sys, a, t, sys'.tasks[t].place)
      && (if a.Step? then PcStep(sys, a.w, sys')
          else forall v :: 0 <= v < |sys.workers| ==> sys'.workers[v].pc == sys.workers[v].pc)
  {
    match a
    case Step(w, choice, next) => StepPlaces(sys, w, choice, next, t);
    case WakeLocal(w, u, target) => WakePlaces(sys, w, u, target, t);
    case _ =>
  }

  // ---------------------------------------------------------------------------
  // Tasks sent to a worker that has left its loop

  /** An assign message for t lies in a mailbox that is never read again. */
  predicate Stranded(sys: Sys, t: TaskId) {
    t < |sys.tasks| && sys.tasks[t].place.AssignMsg? && sys.tasks[t].place.w < |sys.workers| && sys.workers[sys.tasks[t].place.w].pc.Ended?
  }

  /**
    A task becomes stranded exactly when LpelTaskStart, the worker loop with a migrated task, or
    LpelWorkerMakeTaskReady sends it to a worker that has already left its loop.
   */
  lemma StrandedIff(sys: Sys, a: Action, t: TaskId)
    requires Reachable(sys) && Enabled(sys, a) && t < |sys.tasks| && !Stranded(sys, t)
    ensures Stranded(Apply(sys, a), t) <==> exists y: WorkerId :: y < |sys.workers| && Sends(sys, a, t, y) && sys.workers[y].pc.Ended?
  {
    ReachableInv(sys);
    StrandedStep(sys, a, t);
  }

  lemma StrandedStep(sys: Sys, a: Action, t: TaskId)
    requires Inv(sys) && Enabled(sys, a) && t < |sys.tasks| && !Stranded(sys, t)
    ensures Stranded(Apply(sys, a), t) <==> exists y: WorkerId :: y < |sys.workers| && Sends(sys, a, t, y) && sys.workers[y].pc.Ended?
  {
    ActionPlaces(sys, a, t);
    ApplyInv(sys, a);
    TaskAt(Apply(sys, a), t);
    var p, p' := sys.tasks[t].place, Apply(sys, a).tasks[t].place;
    if p' == p && p.AssignMsg? {
      TaskAt(sys, t);
      assert At(t, sys.tasks[t], p.w, sys.workers[p.w]);
      assert Assign(t) in multiset(sys.workers[p.w].mbox);
    }
    forall y: WorkerId | y < |sys.workers| && Sends(sys, a, t, y) ensures p' == AssignMsg(y) {
      SentArrives(sys, a, t, y);
    }
  }

  lemma SentArrives(sys: Sys, a: Action, t: TaskId, y: WorkerId)
    requires Inv(sys) && Enabled(sys, a) && t < |sys.tasks| && y < |sys.workers| && Sends(sys, a, t, y)
    ensures t < |Apply(sys, a).tasks| && Apply(sys, a).tasks[t].place == AssignMsg(y)
  {
    ActionPlaces(sys, a, t);
    TaskAt(sys, t);
    if a.Step? && SendsSlot(sys.workers[a.w], t) {
      InSlot(sys, a.w, t);
    }
  }

  /** Nothing frees a stranded task. */
  lemma StrandedForever(sys: Sys, a: Action, t: TaskId)
    requires Inv(sys) && Enabled(sys, a) && Stranded(sys, t)
    ensures Stranded(Apply(sys, a), t) && Apply(sys, a).tasks[t].place == sys.tasks[t].place
  {
    ActionPlaces(sys, a, t);
  }

  /** A worker leaves its loop with an empty mailbox. */
  lemma EndsWithEmptyMailbox(sys: Sys, a: Action, w: WorkerId)
    requires Reachable(sys) && Enabled(sys, a) && w < |sys.workers|
    requires !sys.workers[w].pc.Ended? && |Apply(sys, a).workers| == |sys.workers| && Apply(sys, a).workers[w].pc.Ended?
    ensures sys.workers[w].mbox == [] && Apply(sys, a).workers[w].mbox == []
  {
    ReachableInv(sys);
    EndingStep(sys, a, w);
  }

  lemma EndingStep(sys: Sys, a: Action, w: WorkerId)
    requires Inv(sys) && Enabled(sys, a) && w < |sys.workers| && |Apply(sys, a).workers| == |sys.workers|
    requires !sys.workers[w].pc.Ended? && Apply(sys, a).workers[w].pc.Ended?
    ensures sys.workers[w].mbox == [] && Apply(sys, a).workers[w].mbox == []
  {
    if |sys.tasks| > 0 {
      ActionPlaces(sys, a, 0);
    } else {
      WorkerAt(sys, w);
    }
  }

  // What a caller can do about it

  /** Some worker has been told to terminate. */
  ghost predicate Told(sys: Sys) {
    exists w :: 0 <= w < |sys.workers| && ToldOne(sys.workers[w])
  }

  predicate ToldOne(k: Worker) { k.terminate || Terminate in k.mbox }

  ghost predicate NoneLive(sys: Sys) {
    forall t :: 0 <= t < |sys.tasks| ==> sys.tasks[t].place in {Unstarted, Gone}
  }

  /** Terminate is sent only when no started task lives, and no task is started afterwards. */
  ghost predicate Orderly(sys: Sys, a: Action) {
    (a.SendTerminate? ==> NoneLive(sys)) && (a.Start? ==> !Told(sys))
  }

  ghost predicate OrderlyRun(sys: Sys, acts: seq<Action>)
    requires Legal(sys, acts)
    decreases |acts|
  {
    acts == [] || (Orderly(sys, acts[0]) && OrderlyRun(Apply(sys, acts[0]), acts[1..]))
  }

  /** A task that is not started, or gone, stays so unless it is started. */
  lemma DormantStays(sys: Sys, a: Action, t: TaskId)
    requires Inv(sys) && Enabled(sys, a) && t < |sys.tasks| && sys.tasks[t].place in {Unstarted, Gone} && a != Start(t)
    ensures t < |Apply(sys, a).tasks| && Apply(sys, a).tasks[t].place == sys.tasks[t].place
  {
    ActionPlaces(sys, a, t);
    forall y: WorkerId | y < |sys.workers| && Sends(sys, a, t, y) ensures false {
      SentFrom(sys, a, t, y);
    }
  }

  /** A task that is sent off has been blocked, or in the slot of a worker, or is being started. */
  lemma SentFrom(sys: Sys, a: Action, t: TaskId, y: WorkerId)
    requires Inv(sys) && Enabled(sys, a) && t < |sys.tasks| && y < |sys.workers| && Sends(sys, a, t, y)
    ensures a == Start(t) || sys.tasks[t].place in {Blocked(Actor(a)), Slot(Actor(a))}
  {
    if Readied(sys, a).ReadyOn? {
      ReadiedBlocked(sys, a);
    } else if a.Step? {
      InSlot(sys, a.w, t);
    }
  }

  lemma ReadiedBlocked(sys: Sys, a: Action)
    requires Inv(sys) && Enabled(sys, a) && Readied(sys, a).ReadyOn?
    ensures var r := Readied(sys, a); r.t < |sys.tasks| && r.w == Actor(a) && sys.tasks[r.t].place == Blocked(r.w)
  {
    var r := Readied(sys, a);
    WorkerAt(sys, r.w);
    if a.Step? && Fetches(sys.workers[a.w]) {
      WakeupMsg(sys, r.w, r.t);
    } else {
      OwedIsBlocked(sys, r.w, r.t);
    }
  }

  lemma NoneLiveStays(sys: Sys, a: Action)
    requires Inv(sys) && Enabled(sys, a) && NoneLive(sys) && !a.Start?
    ensures NoneLive(Apply(sys, a))
  {
    var sys' := Apply(sys, a);
    forall t | 0 <= t < |sys'.tasks| ensures sys'.tasks[t].place in {Unstarted, Gone} {
      if t < |sys.tasks| {
        DormantStays(sys, a, t);
      } else {
        TaskCount(sys, a);
      }
    }
  }

  lemma TaskCount(sys: Sys, a: Action)
    requires Enabled(sys, a)
    ensures !a.Create? ==> |Apply(sys, a).tasks| == |sys.tasks|
  {
  }

  // Nobody is told to terminate but by a terminate message.

  lemma PostTold(sys: Sys, w: WorkerId, m: Msg, v: WorkerId)
    requires w < |sys.workers| && v < |sys.workers| && !m.Terminate?
    ensures ToldOne(Post(sys, w, m).workers[v]) == ToldOne(sys.workers[v])
  {
  }

  lemma ReadyTold(sys: Sys, w: WorkerId, u: TaskId, target: int, v: WorkerId)
    requires w < |sys.workers| && u < |sys.tasks| && target < |sys.workers| && v < |sys.workers|
    ensures ToldOne(MakeTaskReady(sys, w, u, target).workers[v]) == ToldOne(sys.workers[v])
  {
    if Migrates(sys, w, target) {
      var sys1 := SetWorker(sys, w, sys.workers[w].(num := sys.workers[w].num - 1));
      PostTold(SetTask(sys1, u, sys.tasks[u].(state := READY, wc := target, place := AssignMsg(target))), target, Assign(u), v);
    }
  }

  lemma ProcessTold(sys: Sys, w: WorkerId, target: int, v: WorkerId)
    requires w < |sys.workers| && sys.workers[w].mbox != [] && target < |sys.workers| && v < |sys.workers|
    requires MsgOk(sys, sys.workers[w].mbox[0]) && ToldOne(Process(sys, w, target).workers[v])
    ensures ToldOne(sys.workers[v])
  {
    var k := sys.workers[w];
    if k.mbox[0].Wakeup? {
      ReadyTold(SetWorker(sys, w, k.(mbox := k.mbox[1..])), w, k.mbox[0].t, target, v);
    }
  }

  lemma WakeTold(sys: Sys, w: WorkerId, u: TaskId, target: int, v: WorkerId)
    requires w < |sys.workers| && u < |sys.tasks| && target < |sys.workers| && sys.tasks[u].wc < |sys.workers| && v < |sys.workers|
    ensures ToldOne(WakeTask(sys, w, u, target).workers[v]) == ToldOne(sys.workers[v])
  {
    if sys.tasks[u].wc == w {
      ReadyTold(SetTask(sys, u, sys.tasks[u].(owed := false)), w, u, target, v);
    }
  }

  lemma StepTold(sys: Sys, w: WorkerId, choice: Choice, next: TaskId, v: WorkerId)
    requires Enabled(sys, Step(w, choice, next)) && v < |sys.workers| && |StepWorker(sys, w, choice, next).workers| == |sys.workers|
    requires ToldOne(StepWorker(sys, w, choice, next).workers[v])
    ensures ToldOne(sys.workers[v])
  {
    var k := sys.workers[w];
    if Fetches(k) {
      ProcessTold(sys, w, Target(choice), v);
    } else if k.pc.Run? && choice.Wake? {
      WakeTold(sys, w, choice.u, choice.target, v);
    } else if k.pc.BackOnWorker? && k.migrated.Some? {
      var t := k.migrated.t;
      var sys1 := SetWorker(sys, w, k.(pc := Uncount, migrated := None));
      PostTold(SetTask(sys1, t, sys.tasks[t].(place := AssignMsg(sys.tasks[t].wc))), sys.tasks[t].wc, Assign(t), v);
    }
  }

  lemma ToldBefore(sys: Sys, a: Action)
    requires Inv(sys) && Enabled(sys, a) && Told(Apply(sys, a)) && !a.SendTerminate?
    ensures Told(sys)
  {
    var sys' := Apply(sys, a);
    var v :| 0 <= v < |sys'.workers| && ToldOne(sys'.workers[v]);
    WorkerCount(sys, a);
    match a
    case Step(w, choice, next) => StepTold(sys, w, choice, next, v);
    case WakeLocal(w, u, target) => WakeTold(sys, w, u, target, v);
    case _ => assert ToldOne(sys.workers[v]);
  }

  lemma WorkerCount(sys: Sys, a: Action)
    requires Enabled(sys, a)
    ensures |Apply(sys, a).workers| == |sys.workers| && Apply(sys, a).mech == sys.mech
  {
  }

  lemma EndedTold(sys: Sys, y: WorkerId)
    requires Inv(sys) && y < |sys.workers| && sys.workers[y].pc.Ended?
    ensures Told(sys)
  {
    WorkerAt(sys, y);
    assert ToldOne(sys.workers[y]);
  }

  lemma {:induction false} OrderlyInv(sys: Sys, acts: seq<Action>)
    requires Inv(sys) && Legal(sys, acts) && OrderlyRun(sys, acts) && (Told(sys) ==> NoneLive(sys))
    ensures var sys' := After(sys, acts); Inv(sys') && (Told(sys') ==> NoneLive(sys'))
    decreases |acts|
  {
    if acts != [] {
      var sys1 := Apply(sys, acts[0]);
      ApplyInv(sys, acts[0]);
      if Told(sys1) {
        if !acts[0].SendTerminate? {
          ToldBefore(sys, acts[0]);
        }
        NoneLiveStays(sys, acts[0]);
      }
      OrderlyInv(sys1, acts[1..]);
    }
  }

  /** In an orderly run no task is ever stranded. */
  lemma OrderlyNeverStrands(s0: Sys, acts: seq<Action>, t: TaskId)
    requires Init(s0) && Legal(s0, acts) && OrderlyRun(s0, acts)
    ensures !Stranded(After(s0, acts), t)
  {
    InitInv(s0);
    OrderlyInv(s0, acts);
    var sys := After(s0, acts);
    if Stranded(sys, t) {
      EndedTold(sys, sys.tasks[t].place.w);
    }
  }

  // Without migration

  ghost predicate NoSlots(sys: Sys) {
    sys.mech == NoMigration && forall w :: 0 <= w < |sys.workers| ==> sys.workers[w].migrated == None
  }

  lemma ProcessSlots(sys: Sys, w: WorkerId, target: int)
    requires NoSlots(sys) && w < |sys.workers| && sys.workers[w].mbox != [] && target < |sys.workers|
    requires MsgOk(sys, sys.workers[w].mbox[0])
    ensures NoSlots(Process(sys, w, target))
  {
  }

  lemma StepSlots(sys: Sys, w: WorkerId, choice: Choice, next: TaskId)
    requires NoSlots(sys) && Enabled(sys, Step(w, choice, next))
    ensures NoSlots(StepWorker(sys, w, choice, next))
  {
    if Fetches(sys.workers[w]) {
      ProcessSlots(sys, w, Target(choice));
    }
  }

  lemma NoSlotsStays(sys: Sys, a: Action)
    requires NoSlots(sys) && Enabled(sys, a)
    ensures NoSlots(Apply(sys, a))
  {
    match a
    case Step(w, choice, next) => StepSlots(sys, w, choice, next);
    case _ =>
  }

  lemma OnlyStartSends(sys: Sys, a: Action, t: TaskId, y: WorkerId)
    requires NoSlots(sys) && Enabled(sys, a) && t < |sys.tasks| && Sends(sys, a, t, y)
    ensures a == Start(t)
  {
  }

  /** No task is started once a worker has been told to terminate. */
  ghost predicate StartsBeforeEnd(sys: Sys, acts: seq<Action>)
    requires Legal(sys, acts)
    decreases |acts|
  {
    acts == [] || ((acts[0].Start? ==> !Told(sys)) && StartsBeforeEnd(Apply(sys, acts[0]), acts[1..]))
  }

  lemma NotStrandedStays(sys: Sys, a: Action, t: TaskId)
    requires Inv(sys) && NoSlots(sys) && Enabled(sys, a) && !Stranded(sys, t) && (a.Start? ==> !Told(sys))
    ensures !Stranded(Apply(sys, a), t)
  {
    if t < |sys.tasks| {
      StrandedStep(sys, a, t);
      NotSentToEnded(sys, a, t);
    } else {
      TaskCount(sys, a);
    }
  }

  lemma NotSentToEnded(sys: Sys, a: Action, t: TaskId)
    requires Inv(sys) && NoSlots(sys) && Enabled(sys, a) && t < |sys.tasks| && (a.Start? ==> !Told(sys))
    ensures forall y: WorkerId :: y < |sys.workers| && Sends(sys, a, t, y) ==> !sys.workers[y].pc.Ended?
  {
    forall y: WorkerId | y < |sys.workers| && Sends(sys, a, t, y) && sys.workers[y].pc.Ended? ensures false {
      OnlyStartSends(sys, a, t, y);
      EndedTold(sys, y);
    }
  }

  /** Without migration it is enough that no task is started once a worker has been told to terminate. */
  lemma {:induction false} NoMigrationNeverStrands(sys: Sys, acts: seq<Action>, t: TaskId)
    requires Inv(sys) && NoSlots(sys) && Legal(sys, acts) && StartsBeforeEnd(sys, acts) && !Stranded(sys, t)
    ensures !Stranded(After(sys, acts), t)
    decreases |acts|
  {
    if acts != [] {
      ApplyInv(sys, acts[0]);
      NoSlotsStays(sys, acts[0]);
      NotStrandedStays(sys, acts[0], t);
      NoMigrationNeverStrands(Apply(sys, acts[0]), acts[1..], t);
    }
  }

  // ---------------------------------------------------------------------------
  // A run that strands a task

  /** Two workers */
  function Pair(mech: Mechanism, k: Worker, l: Worker, tasks: seq<Task>): Sys { Sys(mech, [k, l], tasks) }

  /** A first task is created and started on the first worker. */
  lemma AssignedFirst(s0: Sys, l: Worker) returns (sys: Sys)
    requires Reachable(s0) && s0 == Pair(s0.mech, InitWorker(), l, [])
    ensures Reachable(sys)
    ensures sys == Pair(s0.mech, InitWorker().(mbox := [Assign(0)]), l, [Task(CREATED, 0, false, AssignMsg(0))])
  {
    var k := InitWorker();
    ReachableStep(s0, Create(0));
    var s1 := Pair(s0.mech, k, l, [Task(CREATED, 0, false, Unstarted)]);
    assert Apply(s0, Create(0)) == s1;
    ReachableStep(s1, Start(0));
    sys := Apply(s1, Start(0));
    assert [] + [Assign(0)] == [Assign(0)];
    assert sys.workers == [k.(mbox := [Assign(0)]), l];
  }

  lemma QueuedFirst(s0: Sys, l: Worker) returns (sys: Sys)
    requires Reachable(s0) && s0 == Pair(s0.mech, InitWorker(), l, [])
    ensures Reachable(sys)
    ensures sys == Pair(s0.mech, InitWorker().(pc := LoopFetch, num := 1, queue := multiset{0}), l, [Task(READY, 0, false, Queued(0))])
  {
    var k := InitWorker();
    var s2 := AssignedFirst(s0, l);
    ReachableStep(s2, Step(0, Block, 0));
    var s3 := Pair(s0.mech, k.(mbox := [Assign(0)], pc := Waiting), l, s2.tasks);
    assert Apply(s2, Step(0, Block, 0)) == s3;
    ReachableStep(s3, Step(0, Block, 0));
    sys := Apply(s3, Step(0, Block, 0));
    assert [Assign(0)][1..] == [] && k.queue + multiset{0} == multiset{0};
    assert sys.workers == [k.(pc := LoopFetch, num := 1, queue := multiset{0}), l];
  }

  lemma RunsFirst(s0: Sys, l: Worker) returns (sys: Sys)
    requires Reachable(s0) && s0 == Pair(s0.mech, InitWorker(), l, [])
    ensures Reachable(sys)
    ensures sys == Pair(s0.mech, InitWorker().(pc := Run(0), num := 1), l, [Task(RUNNING, 0, false, On(0))])
  {
    var k := InitWorker();
    var s4 := QueuedFirst(s0, l);
    ReachableStep(s4, Step(0, Block, 0));
    var s5 := Pair(s0.mech, k.(pc := LoopTop, num := 1, queue := multiset{0}), l, s4.tasks);
    assert Apply(s4, Step(0, Block, 0)) == s5;
    ReachableStep(s5, Step(0, Block, 0));
    var s6 := Pair(s0.mech, k.(pc := Begin(0), num := 1), l, [Task(READY, 0, false, On(0))]);
    assert multiset{0} - multiset{0} == multiset{};
    assert Apply(s5, Step(0, Block, 0)) == s6;
    ReachableStep(s6, Step(0, Block, 0));
    sys := Apply(s6, Step(0, Block, 0));
  }

  lemma TellOne() returns (sys: Sys)
    ensures Reachable(sys) && sys == Pair(Rand, InitWorker(), InitWorker().(mbox := [Terminate]), [])
  {
    var k := InitWorker();
    var s0 := Pair(Rand, k, k, []);
    assert IsRun(s0, [], s0);
    ReachableStep(s0, SendTerminate(1));
    sys := Apply(s0, SendTerminate(1));
    assert [] + [Terminate] == [Terminate];
    assert sys.workers == [k, k.(mbox := [Terminate])];
  }

  /** Two workers under random migration; the second has left its loop. */
  lemma OneEnded() returns (sys: Sys)
    ensures Reachable(sys) && sys == Pair(Rand, InitWorker(), InitWorker().(pc := Ended, terminate := true), [])
  {
    var k := InitWorker();
    var s1 := TellOne();
    ReachableStep(s1, Step(1, Block, 0));
    var s2 := Apply(s1, Step(1, Block, 0));
    assert s2.workers == [k, k.(mbox := [Terminate], pc := Waiting)];
    ReachableStep(s2, Step(1, Block, 0));
    var s3 := Apply(s2, Step(1, Block, 0));
    assert [Terminate][1..] == [];
    assert s3.workers == [k, k.(terminate := true, pc := LoopFetch)];
    ReachableStep(s3, Step(1, Block, 0));
    sys := Apply(s3, Step(1, Block, 0));
    assert sys.workers == [k, k.(pc := Ended, terminate := true)];
  }

  /** A task can be sent to a worker that has left its loop: no worker then owns it, and the mailbox is never read again. */
  lemma StrandedAssign() returns (sys: Sys)
    ensures Reachable(sys) && |sys.workers| == 2 && |sys.tasks| == 1
    ensures Stranded(sys, 0) && sys.tasks[0].place == AssignMsg(1) && sys.workers[1].mbox == [Assign(0)]
  {
    var s := OneEnded();
    var k, l := InitWorker(), s.workers[1];
    var s0 := RunsFirst(s, l);
    ReachableStep(s0, Step(0, CheckMigrate(1), 0));
    var s1 := Pair(Rand, k.(pc := BackOnWorker, num := 1, migrated := Some(0)), l, [Task(READY, 1, false, Slot(0))]);
    assert Apply(s0, Step(0, CheckMigrate(1), 0)) == s1;
    ReachableStep(s1, Step(0, Block, 0));
    sys := Apply(s1, Step(0, Block, 0));
  }
}
