/**
  What the hierarchical scheduler of module Master guarantees in every run: places, credits and
  wakeups; and that the wakeup and the return of a task may come in either order.
 */
module MasterGuarantees {
  import opened TaskQueue
  import opened Master

  /**
    Every task is in exactly one place, held there once and nowhere else, and its state character
    agrees with that place.
   */
  lemma OnePlace(sys: Sys, t: TaskId)
    requires Reachable(sys) && Shape(sys) && t < |sys.tasks|
    ensures sys.tasks[t].place != Hand
    ensures PlaceOk(sys, t) && StateOk(sys, t)
    ensures sys.tasks[t].state == INQUEUE <==> t in sys.ready
    ensures sys.tasks[t].state == RETURNED <==> sys.tasks[t].place == Parked
  {
    ReachableInv(sys);
    TaskAt(sys, t);
  }

  /** w has been given t: in its mailbox, or on it. */
  predicate Given(sys: Sys, t: TaskId, w: WorkerId)
    requires Shape(sys) && w < |sys.worker|
  {
    Assign(t) in sys.wbox[w] || (HasTask(sys.worker[w]) && sys.worker[w].t == t)
  }

  /** No task is ever given to two workers, or twice to one. */
  lemma NeverTwoWorkers(sys: Sys, t: TaskId, v: WorkerId, w: WorkerId)
    requires Reachable(sys) && Shape(sys) && v < |sys.worker| && w < |sys.worker| && t < |sys.tasks|
    requires Given(sys, t, v) && Given(sys, t, w)
    ensures v == w
    ensures multiset(sys.wbox[w])[Assign(t)] + Bit(HasTask(sys.worker[w]) && sys.worker[w].t == t) == 1
    ensures t !in sys.ready && NewTask(t) !in sys.mbox && Return(t) !in sys.mbox
  {
    ReachableInv(sys);
    TaskAt(sys, t);
  }

  /**
    The asserts on task states hold: for the next message to the master, for the next message to
    an idle worker, when a task is started, and when a queued task is searched.
   */
  lemma StateAssertsHold(sys: Sys)
    requires Reachable(sys) && Shape(sys)
    ensures sys.mbox != [] ==> MsgOk(sys, sys.mbox[0])
    ensures sys.mbox != [] && sys.mbox[0].NewTask? ==> sys.tasks[sys.mbox[0].t].state == CREATED
    ensures sys.mbox != [] && sys.mbox[0].Return? ==> sys.tasks[sys.mbox[0].t].state in {READY, BLOCKED, ZOMBIE}
    ensures forall w :: 0 <= w < |sys.worker| && sys.worker[w].Idle? && sys.wbox[w] != [] ==>
              WorkerReady(sys, w) && (sys.wbox[w][0].Assign? ==> sys.tasks[sys.wbox[w][0].t].state == READY)
    ensures forall w :: 0 <= w < |sys.worker| && sys.worker[w].Dispatch? ==>
              sys.worker[w].t < |sys.tasks| && sys.tasks[sys.worker[w].t].state == READY
    ensures forall u :: 0 <= u < |sys.tasks| && sys.tasks[u].state == INQUEUE ==> u in sys.ready
  {
    ReachableInv(sys);
    if sys.mbox != [] && (sys.mbox[0].NewTask? || sys.mbox[0].Return?) {
      assert sys.mbox[0] in multiset(sys.mbox);
      TaskAt(sys, sys.mbox[0].t);
    }
    forall w | 0 <= w < |sys.worker| && sys.worker[w].Idle? && sys.wbox[w] != []
      ensures WorkerReady(sys, w) && (sys.wbox[w][0].Assign? ==> sys.tasks[sys.wbox[w][0].t].state == READY)
    {
      if sys.wbox[w][0].Assign? {
        assert sys.wbox[w][0] in multiset(sys.wbox[w]);
        TaskAt(sys, sys.wbox[w][0].t);
      }
    }
    forall w | 0 <= w < |sys.worker| && sys.worker[w].Dispatch?
      ensures sys.worker[w].t < |sys.tasks| && sys.tasks[sys.worker[w].t].state == READY
    {
      RunningTask(sys, w);
    }
    forall u | 0 <= u < |sys.tasks| && sys.tasks[u].state == INQUEUE
      ensures u in sys.ready
    {
      TaskAt(sys, u);
      assert u in multiset(sys.ready);
    }
  }

  /** Each worker has exactly one request somewhere, so its mailbox never holds two tasks. */
  lemma OneCredit(sys: Sys, w: WorkerId)
    requires Reachable(sys) && Shape(sys) && w < |sys.worker|
    ensures multiset(sys.mbox)[Request(w)] + Bit(sys.waiting[w]) + Assigns(sys.wbox[w]) + Bit(Holds(sys.worker[w])) == 1
    ensures Assigns(sys.wbox[w]) <= 1
  {
    ReachableInv(sys);
    assert Credits(sys, w) == 1;
  }

  /**
    A task is made ready exactly once per decision to block; outside an episode no wakeup of it is
    owed, in flight or remembered.
   */
  lemma OneReadyPerEpisode(sys: Sys, t: TaskId)
    requires Reachable(sys) && Shape(sys) && t < |sys.tasks|
    ensures sys.tasks[t].blocks == sys.tasks[t].unblocks + Bit(InEpisode(sys, t))
    ensures InEpisode(sys, t) ==> multiset(sys.mbox)[Wakeup(t)] + Bit(sys.tasks[t].owed) + Bit(sys.tasks[t].wakenup) == 1
    ensures !InEpisode(sys, t) ==> Wakeup(t) !in sys.mbox && !sys.tasks[t].owed && !sys.tasks[t].wakenup
  {
    ReachableInv(sys);
    TaskAt(sys, t);
  }

  // ---------------------------------------------------------------------------
  // Confluence of wakeup and return

  /** sys with another mailbox and another record for t */
  function With(sys: Sys, mbox: seq<Msg>, t: TaskId, x: Task): Sys
    requires t < |sys.tasks|
  {
    sys.(mbox := mbox, tasks := sys.tasks[t := x])
  }

  lemma {:induction false} UpdateNeighboursIgnores(sys: Sys, updates: seq<Update>, mbox: seq<Msg>, t: TaskId, x: Task)
    requires t < |sys.tasks| && x.state != INQUEUE && sys.tasks[t].state != INQUEUE
    ensures UpdateNeighbours(sys, updates).tasks == sys.tasks
    ensures UpdateNeighbours(With(sys, mbox, t, x), updates) == With(UpdateNeighbours(sys, updates), mbox, t, x)
    decreases |updates|
  {
    if updates != [] {
      UpdateNeighbourIgnores(sys, updates[0], mbox, t, x);
      UpdateNeighboursIgnores(UpdateNeighbour(sys, updates[0]), updates[1..], mbox, t, x);
    }
  }

  lemma UpdateNeighbourIgnores(sys: Sys, u: Update, mbox: seq<Msg>, t: TaskId, x: Task)
    requires t < |sys.tasks| && x.state != INQUEUE && sys.tasks[t].state != INQUEUE
    ensures UpdateNeighbour(sys, u).tasks == sys.tasks
    ensures UpdateNeighbour(With(sys, mbox, t, x), u) == With(UpdateNeighbour(sys, u), mbox, t, x)
  {
  }

  lemma ServeHeadIgnores(sys: Sys, mbox: seq<Msg>, t: TaskId, x: Task)
    requires Shape(sys) && t < |sys.tasks| && t !in sys.ready
    ensures |ServeHead(sys).tasks| == |sys.tasks|
    ensures ServeHead(With(sys, mbox, t, x)) == With(ServeHead(sys), mbox, t, x)
  {
    var i := FirstWaiting(sys.waiting);
    if sys.ready != [] && sys.ready[0] < |sys.tasks| && Key(sys.info, sys.ready[0]).valid && i < |sys.waiting| {
      var h := sys.ready[0];
      assert h != t;
      var y := sys.tasks[h].(state := READY);
      assert sys.tasks[t := x][h := y][h := y.(place := Assigned(i))] == sys.tasks[h := y][h := y.(place := Assigned(i))][t := x];
    }
  }

  lemma {:induction false} UpdateNeighboursReady(sys: Sys, updates: seq<Update>, t: TaskId)
    requires t !in sys.ready
    ensures t !in UpdateNeighbours(sys, updates).ready
    decreases |updates|
  {
    if updates != [] {
      var x := updates[0];
      if x.u < |sys.tasks| && sys.tasks[x.u].state == INQUEUE && x.u in sys.ready && x.reprioritise {
        UpdatePriorityKeeps(sys.ready, x.u, x.np, UpdateValid(sys, x.u, x.valid).info);
        assert t !in multiset(sys.ready);
        assert t !in multiset(UpdateNeighbour(sys, x).ready);
      }
      UpdateNeighboursReady(UpdateNeighbour(sys, x), updates[1..], t);
    }
  }

  /** What the handler of a return does before it looks at the task. */
  function BeforeSwitch(sys: Sys, updates: seq<Update>): Sys
    requires Shape(sys)
  {
    UpdateNeighboursShape(sys, updates);
    ServeHead(UpdateNeighbours(sys, updates))
  }

  /** It depends neither on the mailbox nor on the returned task's record. */
  lemma BeforeSwitchIgnores(sys: Sys, updates: seq<Update>, mbox: seq<Msg>, t: TaskId, x: Task)
    requires Shape(sys) && t < |sys.tasks| && t !in sys.ready
    requires sys.tasks[t].state != INQUEUE && x.state != INQUEUE
    ensures Shape(BeforeSwitch(sys, updates)) && |BeforeSwitch(sys, updates).tasks| == |sys.tasks|
    ensures BeforeSwitch(With(sys, mbox, t, x), updates) == With(BeforeSwitch(sys, updates), mbox, t, x)
  {
    UpdateNeighboursShape(sys, updates);
    UpdateNeighboursIgnores(sys, updates, mbox, t, x);
    UpdateNeighboursReady(sys, updates, t);
    ServeHeadIgnores(UpdateNeighbours(sys, updates), mbox, t, x);
  }

  /** The record of a blocked task whose episode ends. */
  function ReadyAgain(x: Task): Task {
    x.(place := Hand, state := READY, wakenup := false, unblocks := x.unblocks + 1)
  }

  /** The handler of a blocked task's return, up to the switch. */
  lemma ReturnUpToSwitch(sys: Sys, t: TaskId, mbox: seq<Msg>, x: Task, updates: seq<Update>, valid: bool, prio: int)
    requires Shape(sys) && t < |sys.tasks| && t !in sys.ready && sys.tasks[t].state == BLOCKED && x.state == BLOCKED
    ensures var mid := BeforeSwitch(sys, updates);
      && Shape(mid) && |mid.tasks| == |sys.tasks|
      && HandleReturn(With(sys, mbox, t, x), t, updates, valid, prio)
           == ProcessReturned(With(mid, mbox, t, x.(place := Hand)), t, valid, prio)
  {
    var h := x.(place := Hand);
    BeforeSwitchIgnores(sys, updates, mbox, t, h);
    assert TakeInHand(With(sys, mbox, t, x), t) == With(sys, mbox, t, h);
  }

  /** The return of a task whose wakeup has been noted. */
  lemma ReturnWhenWoken(sys: Sys, t: TaskId, mbox: seq<Msg>, x: Task, updates: seq<Update>, valid: bool, prio: int)
    requires Shape(sys) && t < |sys.tasks| && t !in sys.ready && sys.tasks[t].state == BLOCKED && x.state == BLOCKED
    requires x.wakenup
    ensures var mid := BeforeSwitch(sys, updates);
      && Shape(mid) && |mid.tasks| == |sys.tasks|
      && HandleReturn(With(sys, mbox, t, x), t, updates, valid, prio)
           == ProcessReady(With(mid, mbox, t, ReadyAgain(x)), t, valid, prio)
  {
    ReturnUpToSwitch(sys, t, mbox, x, updates, valid, prio);
    var mid := BeforeSwitch(sys, updates);
    var h := x.(place := Hand);
    assert mid.tasks[t := h][t := h.(wakenup := false)][t := ReadyAgain(x)] == mid.tasks[t := ReadyAgain(x)];
  }

  /** The return of a task whose wakeup has not come yet. */
  lemma ReturnWhenNotWoken(sys: Sys, t: TaskId, mbox: seq<Msg>, x: Task, updates: seq<Update>, valid: bool, prio: int)
    requires Shape(sys) && t < |sys.tasks| && t !in sys.ready && sys.tasks[t].state == BLOCKED && x.state == BLOCKED
    requires !x.wakenup
    ensures var mid := BeforeSwitch(sys, updates);
      && Shape(mid) && |mid.tasks| == |sys.tasks|
      && HandleReturn(With(sys, mbox, t, x), t, updates, valid, prio)
           == With(mid, mbox, t, x.(state := RETURNED, place := Parked))
  {
    ReturnUpToSwitch(sys, t, mbox, x, updates, valid, prio);
    var mid := BeforeSwitch(sys, updates);
    var h, parked := x.(place := Hand), x.(state := RETURNED, place := Parked);
    assert mid.tasks[t := h][t := parked] == mid.tasks[t := parked];
  }

  /** The wakeup of a parked task. */
  lemma WakeupWhenParked(sys: Sys, t: TaskId, mbox: seq<Msg>, x: Task, valid: bool, prio: int)
    requires Shape(sys) && t < |sys.tasks| && x.state == RETURNED && !x.wakenup
    ensures HandleWakeup(With(sys, mbox, t, x), t, valid, prio)
         == ProcessReady(With(sys, mbox, t, ReadyAgain(x)), t, valid, prio)
  {
    assert sys.tasks[t := x][t := x.(place := Hand)][t := ReadyAgain(x)] == sys.tasks[t := ReadyAgain(x)];
  }

  /**
    A blocked task whose return and wakeup messages are both with the master. The loop ends between
    them exactly if terminate is set and the queue is then empty: unchanged if the wakeup came first,
    after the updates and the serving of its head if the return did. Otherwise, whichever message
    comes first, with the same neighbours and priorities the same state is reached, and in it the
    task has been made ready once and wakenup is 0.
   */
  lemma WakeupReturnConfluence(sys: Sys, t: TaskId, rest: seq<Msg>, updates: seq<Update>, valid: bool, prio: int)
    requires Inv(sys) && !sys.stopped && t < |sys.tasks|
    requires sys.mbox == [Wakeup(t), Return(t)] + rest
    ensures var swapped := sys.(mbox := [Return(t), Wakeup(t)] + rest);
      var first := StepMaster(sys, updates, valid, prio);
      var second := StepMaster(swapped, updates, valid, prio);
      && Shape(first) && Shape(second) && first.mbox == [Return(t)] + rest && second.mbox == [Wakeup(t)] + rest
      && |first.tasks| == |second.tasks| == |sys.tasks|
      && (first.stopped <==> sys.terminate && sys.ready == [])
      && (second.stopped <==> sys.terminate && BeforeSwitch(sys, updates).ready == [])
      && first.tasks[t].state == BLOCKED && second.tasks[t].state == RETURNED
      && (!first.stopped && !second.stopped ==>
            var last := StepMaster(first, updates, valid, prio);
            && last == StepMaster(second, updates, valid, prio)
            && |last.tasks| == |sys.tasks|
            && !last.tasks[t].wakenup && last.tasks[t].unblocks == sys.tasks[t].unblocks + 1
            && last.tasks[t].state in {READY, INQUEUE})
  {
    BothOnTheirWay(sys, t, rest);
    var x := sys.tasks[t];
    var mid := BeforeSwitch(sys, updates);
    FirstWakeup(sys, t, rest, updates, valid, prio);
    FirstReturn(sys, t, rest, updates, valid, prio);
    ProcessReadyFlags(With(mid, rest, t, ReadyAgain(x)), t, valid, prio);
    BeforeSwitchFlags(sys, updates);
  }

  /** When the return of a task empties the ready queue */
  lemma EmptiedIff(sys: Sys, updates: seq<Update>)
    requires Shape(sys) && TasksOk(sys)
    ensures BeforeSwitch(sys, updates).ready == [] <==>
              sys.ready == [] ||
              (|sys.ready| == 1 && Key(UpdateNeighbours(sys, updates).info, sys.ready[0]).valid && !NoneWaiting(sys.waiting))
  {
    UpdateNeighboursOk(sys, updates);
    var sys1 := UpdateNeighbours(sys, updates);
    UpdateNeighboursCount(sys, updates);
    ServedIff(sys1);
    if |sys.ready| == 1 {
      assert sys1.ready[0] in multiset(sys1.ready);
      assert sys1.ready[0] in sys.ready;
    }
  }

  lemma ServedIff(sys: Sys)
    requires Shape(sys) && InRange(sys)
    ensures ServeHead(sys).ready == [] <==>
              sys.ready == [] || (|sys.ready| == 1 && Key(sys.info, sys.ready[0]).valid && !NoneWaiting(sys.waiting))
  {
    if sys.ready != [] {
      OccupyKeeps(sys.ready, sys.ready[0], sys.info);
      assert |multiset(Occupy(sys.ready, sys.ready[0], sys.info))| == |sys.ready| - 1;
    }
  }

  lemma {:induction false} UpdateNeighboursCount(sys: Sys, updates: seq<Update>)
    ensures multiset(UpdateNeighbours(sys, updates).ready) == multiset(sys.ready)
    ensures |UpdateNeighbours(sys, updates).ready| == |sys.ready|
    decreases |updates|
  {
    if updates != [] {
      var x := updates[0];
      if x.u < |sys.tasks| && sys.tasks[x.u].state == INQUEUE && x.u in sys.ready && x.reprioritise {
        UpdatePriorityKeeps(sys.ready, x.u, x.np, UpdateValid(sys, x.u, x.valid).info);
      }
      UpdateNeighboursCount(UpdateNeighbour(sys, x), updates[1..]);
    }
    assert |multiset(UpdateNeighbours(sys, updates).ready)| == |multiset(sys.ready)|;
  }

  lemma BothOnTheirWay(sys: Sys, t: TaskId, rest: seq<Msg>)
    requires Inv(sys) && t < |sys.tasks| && sys.mbox == [Wakeup(t), Return(t)] + rest
    ensures sys.tasks[t].state == BLOCKED && !sys.tasks[t].wakenup && t !in sys.ready
  {
    TaskAt(sys, t);
    assert multiset(sys.mbox) == multiset{Wakeup(t), Return(t)} + multiset(rest);
  }

  lemma BeforeSwitchFlags(sys: Sys, updates: seq<Update>)
    requires Shape(sys)
    ensures BeforeSwitch(sys, updates).terminate == sys.terminate && BeforeSwitch(sys, updates).stopped == sys.stopped
  {
    UpdateNeighboursShape(sys, updates);
  }

  /** How a ready task in hand comes out. */
  ghost predicate ComesOut(sys: Sys, sys': Sys, t: TaskId)
    requires t < |sys.tasks|
  {
    && sys'.terminate == sys.terminate && sys'.stopped == sys.stopped && Shape(sys') && |sys'.tasks| == |sys.tasks| && sys'.mbox == sys.mbox
    && sys'.tasks[t].wakenup == sys.tasks[t].wakenup && sys'.tasks[t].unblocks == sys.tasks[t].unblocks
    && sys'.tasks[t].state in {READY, INQUEUE}
  }

  lemma SendFlags(sys: Sys, w: WorkerId, t: TaskId)
    requires Shape(sys) && t < |sys.tasks| && sys.tasks[t].state == READY && w < |sys.wbox|
    ensures ComesOut(sys, Send(sys, w, t), t)
  {
  }

  lemma EnqueueFlags(sys: Sys, t: TaskId)
    requires Shape(sys) && t < |sys.tasks|
    ensures ComesOut(sys, Enqueue(sys, t), t)
  {
  }

  lemma ServeOrEnqueueFlags(sys: Sys, t: TaskId, info: Table)
    requires Shape(sys) && t < |sys.tasks| && sys.tasks[t].state == READY
    ensures ComesOut(sys, ServeOrEnqueue(sys, t, info), t)
  {
    var i := FirstWaiting(sys.waiting);
    if i < |sys.waiting| {
      SendFlags(sys.(waiting := sys.waiting[i := false]), i, t);
    } else {
      EnqueueFlags(sys.(info := info), t);
    }
  }

  lemma ProcessReadyFlags(sys: Sys, t: TaskId, valid: bool, prio: int)
    requires Shape(sys) && t < |sys.tasks| && sys.tasks[t].state == READY
    ensures ComesOut(sys, ProcessReady(sys, t, valid, prio), t)
  {
    var sys1 := UpdateValid(sys, t, valid);
    EnqueueFlags(sys1, t);
    ServeOrEnqueueFlags(sys1, t, SetPrio(sys1.info, t, prio));
  }

  lemma TurnIs(sys: Sys, m: Msg, rest: seq<Msg>, updates: seq<Update>, valid: bool, prio: int)
    requires Shape(sys) && sys.mbox == [m] + rest && MsgOk(sys, m)
    ensures StepMaster(sys, updates, valid, prio) == EndTurn(Handle(sys.(mbox := rest), m, updates, valid, prio))
  {
    assert sys.mbox[1..] == rest;
  }

  lemma NoteFirst(sys: Sys, t: TaskId, rest: seq<Msg>, updates: seq<Update>, valid: bool, prio: int)
    requires Inv(sys) && t < |sys.tasks| && sys.mbox == [Wakeup(t), Return(t)] + rest && sys.tasks[t].state == BLOCKED
    ensures StepMaster(sys, updates, valid, prio) == EndTurn(With(sys, [Return(t)] + rest, t, sys.tasks[t].(wakenup := true)))
  {
    assert sys.mbox == [Wakeup(t)] + ([Return(t)] + rest);
    TurnIs(sys, Wakeup(t), [Return(t)] + rest, updates, valid, prio);
  }

  /** Wakeup first, then return. */
  lemma FirstWakeup(sys: Sys, t: TaskId, rest: seq<Msg>, updates: seq<Update>, valid: bool, prio: int)
    requires Inv(sys) && !sys.stopped && t < |sys.tasks| && sys.mbox == [Wakeup(t), Return(t)] + rest
    requires sys.tasks[t].state == BLOCKED && !sys.tasks[t].wakenup && t !in sys.ready
    ensures var mid := BeforeSwitch(sys, updates);
      && Shape(mid) && |mid.tasks| == |sys.tasks|
      && var first := EndTurn(With(sys, [Return(t)] + rest, t, sys.tasks[t].(wakenup := true)));
      && first == StepMaster(sys, updates, valid, prio)
      && (!first.stopped ==>
            StepMaster(first, updates, valid, prio) == EndTurn(ProcessReady(With(mid, rest, t, ReadyAgain(sys.tasks[t])), t, valid, prio)))
  {
    NoteFirst(sys, t, rest, updates, valid, prio);
    var x := sys.tasks[t].(wakenup := true);
    var first := With(sys, [Return(t)] + rest, t, x);
    ReturnNoted(sys, t, rest, x, updates, valid, prio);
    assert ReadyAgain(x) == ReadyAgain(sys.tasks[t]);
    if !EndTurn(first).stopped {
      assert EndTurn(first) == first;
    }
  }

  /** The return of a task whose wakeup NoteFirst has noted. */
  lemma ReturnNoted(sys: Sys, t: TaskId, rest: seq<Msg>, x: Task, updates: seq<Update>, valid: bool, prio: int)
    requires Shape(sys) && t < |sys.tasks| && t !in sys.ready && sys.tasks[t].state == BLOCKED && x.state == BLOCKED && x.wakenup
    ensures var mid := BeforeSwitch(sys, updates);
      && Shape(mid) && |mid.tasks| == |sys.tasks|
      && StepMaster(With(sys, [Return(t)] + rest, t, x), updates, valid, prio)
           == EndTurn(ProcessReady(With(mid, rest, t, ReadyAgain(x)), t, valid, prio))
  {
    var first := With(sys, [Return(t)] + rest, t, x);
    TurnIs(first, Return(t), rest, updates, valid, prio);
    assert first.(mbox := rest) == With(sys, rest, t, x);
    ReturnWhenWoken(sys, t, rest, x, updates, valid, prio);
  }

  lemma ParkFirst(sys: Sys, t: TaskId, rest: seq<Msg>, updates: seq<Update>, valid: bool, prio: int)
    requires Inv(sys) && !sys.stopped && t < |sys.tasks| && sys.mbox == [Wakeup(t), Return(t)] + rest
    requires sys.tasks[t].state == BLOCKED && !sys.tasks[t].wakenup && t !in sys.ready
    ensures var mid := BeforeSwitch(sys, updates);
      && Shape(mid) && |mid.tasks| == |sys.tasks|
      && StepMaster(sys.(mbox := [Return(t), Wakeup(t)] + rest), updates, valid, prio)
           == EndTurn(With(mid, [Wakeup(t)] + rest, t, sys.tasks[t].(state := RETURNED, place := Parked)))
  {
    var swapped := sys.(mbox := [Return(t), Wakeup(t)] + rest);
    assert swapped.mbox == [Return(t)] + ([Wakeup(t)] + rest);
    TurnIs(swapped, Return(t), [Wakeup(t)] + rest, updates, valid, prio);
    assert swapped.(mbox := [Wakeup(t)] + rest) == With(sys, [Wakeup(t)] + rest, t, sys.tasks[t]);
    ReturnWhenNotWoken(sys, t, [Wakeup(t)] + rest, sys.tasks[t], updates, valid, prio);
  }

  /** The wakeup of a task that ParkFirst has parked. */
  lemma WakeParked(mid: Sys, t: TaskId, rest: seq<Msg>, x: Task, updates: seq<Update>, valid: bool, prio: int)
    requires Shape(mid) && t < |mid.tasks| && x.state == RETURNED && !x.wakenup
    ensures StepMaster(With(mid, [Wakeup(t)] + rest, t, x), updates, valid, prio)
         == EndTurn(ProcessReady(With(mid, rest, t, ReadyAgain(x)), t, valid, prio))
  {
    var second := With(mid, [Wakeup(t)] + rest, t, x);
    TurnIs(second, Wakeup(t), rest, updates, valid, prio);
    assert second.(mbox := rest) == With(mid, rest, t, x);
    WakeupWhenParked(mid, t, rest, x, valid, prio);
  }

  /** Return first, then wakeup. */
  lemma FirstReturn(sys: Sys, t: TaskId, rest: seq<Msg>, updates: seq<Update>, valid: bool, prio: int)
    requires Inv(sys) && !sys.stopped && t < |sys.tasks| && sys.mbox == [Wakeup(t), Return(t)] + rest
    requires sys.tasks[t].state == BLOCKED && !sys.tasks[t].wakenup && t !in sys.ready
    ensures var mid := BeforeSwitch(sys, updates);
      && Shape(mid) && |mid.tasks| == |sys.tasks|
      && var second := EndTurn(With(mid, [Wakeup(t)] + rest, t, sys.tasks[t].(state := RETURNED, place := Parked)));
      && second == StepMaster(sys.(mbox := [Return(t), Wakeup(t)] + rest), updates, valid, prio)
      && (!second.stopped ==>
            StepMaster(second, updates, valid, prio)
              == EndTurn(ProcessReady(With(mid, rest, t, ReadyAgain(sys.tasks[t])), t, valid, prio)))
  {
    ParkFirst(sys, t, rest, updates, valid, prio);
    BeforeSwitchFlags(sys, updates);
    var mid := BeforeSwitch(sys, updates);
    var parked := sys.tasks[t].(state := RETURNED, place := Parked);
    WakeParked(mid, t, rest, parked, updates, valid, prio);
    assert ReadyAgain(parked) == ReadyAgain(sys.tasks[t]);
  }
}
