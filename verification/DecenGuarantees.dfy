/** What the decentralised workers of module Decen guarantee in every run: places, counts and task states. */
module DecenGuarantees {
  import opened Decen

  /** Every task is in exactly one place, held there once and nowhere else, and its state agrees with that place. */
  lemma OnePlace(sys: Sys, t: TaskId, v: WorkerId)
    requires Reachable(sys) && t < |sys.tasks| && v < |sys.workers|
    ensures StateOk(sys.tasks[t], |sys.workers|)
    ensures var k, p := sys.workers[v], sys.tasks[t].place;
      && multiset(k.mbox)[Assign(t)] == Bit(p == AssignMsg(v))
      && k.queue[t] == Bit(p == Queued(v))
      && (Holds(k.pc, t) <==> p == On(v))
      && (k.migrated == Some(t) <==> p == Slot(v))
  {
    ReachableInv(sys);
    TaskAt(sys, t);
  }

  /** num_tasks counts the live tasks at the worker, one more only between sending off a migrated task and discounting it; it never wraps. */
  lemma CountIsExact(sys: Sys, w: WorkerId)
    requires Reachable(sys) && w < |sys.workers|
    ensures sys.workers[w].num == |Located(sys.tasks, w)| + Bit(sys.workers[w].pc.Uncount?)
    ensures sys.workers[w].num >= 0
    ensures forall t: TaskId :: t < |sys.tasks| && IsLocated(sys.tasks[t], w) ==> sys.workers[w].num > 0
  {
    ReachableInv(sys);
    WorkerAt(sys, w);
    forall t: TaskId | t < |sys.tasks| && IsLocated(sys.tasks[t], w) ensures sys.workers[w].num > 0 {
      LocatedCounted(sys, w, t);
    }
  }

  /** A worker that has left its loop owns no live task. */
  lemma EndedOwnsNothing(sys: Sys, w: WorkerId, t: TaskId)
    requires Reachable(sys) && w < |sys.workers| && t < |sys.tasks| && sys.workers[w].pc.Ended?
    ensures !IsLocated(sys.tasks[t], w) && sys.workers[w].num == 0
  {
    ReachableInv(sys);
    WorkerAt(sys, w);
    if IsLocated(sys.tasks[t], w) {
      LocatedCounted(sys, w, t);
    }
  }

  /** The asserts on task states hold whenever their code is reached. */
  lemma StateAsserts(sys: Sys, w: WorkerId)
    requires Reachable(sys) && w < |sys.workers|
    ensures var k := sys.workers[w];
      && (k.mbox != [] ==> MsgOk(sys, k.mbox[0]))
      && (k.mbox != [] && k.mbox[0].Assign? ==> sys.tasks[k.mbox[0].t].state in {CREATED, READY})
      && (k.mbox != [] && k.mbox[0].Wakeup? && !HasTask(k.pc) ==> sys.tasks[k.mbox[0].t].state == BLOCKED && sys.tasks[k.mbox[0].t].wc == w)
      && (k.pc.Begin? ==> k.pc.t < |sys.tasks| && sys.tasks[k.pc.t].state == READY)
      && (k.pc.Run? ==> k.pc.t < |sys.tasks| && sys.tasks[k.pc.t].state == RUNNING && sys.tasks[k.pc.t].wc == w)
    ensures forall u: TaskId :: u < |sys.tasks| && sys.tasks[u].owed && sys.tasks[u].wc == w && !Holds(sys.workers[w].pc, u) ==>
              sys.tasks[u].state == BLOCKED
  {
    ReachableInv(sys);
    WorkerAt(sys, w);
    var k := sys.workers[w];
    if HasTask(k.pc) {
      HeldTask(sys, w);
    }
    if k.mbox != [] && !k.mbox[0].Terminate? {
      HeadMsg(sys, w);
    }
    forall u: TaskId | u < |sys.tasks| && sys.tasks[u].owed && sys.tasks[u].wc == w && !Holds(k.pc, u)
      ensures sys.tasks[u].state == BLOCKED
    {
      OwedIsBlocked(sys, w, u);
    }
  }

  lemma HeadMsg(sys: Sys, w: WorkerId)
    requires Inv(sys) && w < |sys.workers| && sys.workers[w].mbox != [] && !sys.workers[w].mbox[0].Terminate?
    ensures var k := sys.workers[w]; var t := k.mbox[0].t;
      && t < |sys.tasks|
      && (k.mbox[0].Assign? ==> sys.tasks[t].state in {CREATED, READY})
      && (k.mbox[0].Wakeup? && !HasTask(k.pc) ==> sys.tasks[t].state == BLOCKED && sys.tasks[t].wc == w)
  {
    WorkerAt(sys, w);
    var k := sys.workers[w];
    var t := k.mbox[0].t;
    TaskAt(sys, t);
    assert k.mbox[0] in multiset(k.mbox);
    assert At(t, sys.tasks[t], w, k);
  }

  // Conservation

  function Assigns(mbox: seq<Msg>): nat {
    if mbox == [] then 0 else Bit(mbox[0].Assign?) + Assigns(mbox[1..])
  }

  lemma {:induction false} AssignsCount(mbox: seq<Msg>, s: set<TaskId>)
    requires forall t: TaskId :: multiset(mbox)[Assign(t)] == Bit(t in s)
    ensures Assigns(mbox) == |s|
    decreases |mbox|
  {
    if mbox == [] {
      forall t: TaskId ensures t !in s {
        assert multiset(mbox)[Assign(t)] == 0;
      }
      assert s == {};
    } else {
      assert mbox == [mbox[0]] + mbox[1..];
      var s' := if mbox[0].Assign? then s - {mbox[0].t} else s;
      forall t: TaskId ensures multiset(mbox[1..])[Assign(t)] == Bit(t in s') {
        assert multiset(mbox)[Assign(t)] == Bit(mbox[0] == Assign(t)) + multiset(mbox[1..])[Assign(t)];
      }
      AssignsCount(mbox[1..], s');
      if mbox[0].Assign? {
        assert multiset(mbox)[mbox[0]] > 0;
        assert mbox[0].t in s;
      }
    }
  }

  /** Started live tasks whose place is at a worker below n */
  ghost function LiveBelow(tasks: seq<Task>, n: nat): set<TaskId> {
    set t: TaskId | t < |tasks| && tasks[t].place != Unstarted && tasks[t].place != Gone && tasks[t].place.w < n
  }

  ghost function InFlight(tasks: seq<Task>, w: WorkerId): set<TaskId> {
    set t: TaskId | t < |tasks| && tasks[t].place == AssignMsg(w)
  }

  /** A worker's count, without the discount still to be made, and the assign messages in its mailbox */
  function Tally(k: Worker): int { k.num - Bit(k.pc.Uncount?) + Assigns(k.mbox) }

  function Accounted(workers: seq<Worker>, n: nat): int
    requires n <= |workers|
  {
    if n == 0 then 0 else Accounted(workers, n - 1) + Tally(workers[n - 1])
  }

  lemma {:induction false} AccountedIsLive(workers: seq<Worker>, tasks: seq<Task>, n: nat)
    requires n <= |workers|
    requires forall w :: 0 <= w < n ==> Tally(workers[w]) == |Located(tasks, w)| + |InFlight(tasks, w)|
    ensures Accounted(workers, n) == |LiveBelow(tasks, n)|
  {
    if n == 0 {
      assert LiveBelow(tasks, 0) == {};
    } else {
      AccountedIsLive(workers, tasks, n - 1);
      LiveSplit(tasks, n - 1);
    }
  }

  lemma TallyIsLive(sys: Sys, w: WorkerId)
    requires Inv(sys) && w < |sys.workers|
    ensures Tally(sys.workers[w]) == |Located(sys.tasks, w)| + |InFlight(sys.tasks, w)|
  {
    WorkerAt(sys, w);
    FlightIsMail(sys, w);
  }

  lemma LiveSplit(tasks: seq<Task>, w: WorkerId)
    ensures |LiveBelow(tasks, w + 1)| == |LiveBelow(tasks, w)| + |Located(tasks, w)| + |InFlight(tasks, w)|
  {
    var a, b, c := LiveBelow(tasks, w), Located(tasks, w), InFlight(tasks, w);
    assert LiveBelow(tasks, w + 1) == a + b + c;
    assert a !! b && (a + b) !! c;
  }

  lemma FlightIsMail(sys: Sys, w: WorkerId)
    requires Inv(sys) && w < |sys.workers|
    ensures Assigns(sys.workers[w].mbox) == |InFlight(sys.tasks, w)|
  {
    WorkerAt(sys, w);
    var k, s := sys.workers[w], InFlight(sys.tasks, w);
    forall t: TaskId ensures multiset(k.mbox)[Assign(t)] == Bit(t in s) {
      if t < |sys.tasks| {
        TaskAt(sys, t);
      } else {
        assert Assign(t) !in k.mbox;
      }
    }
    AssignsCount(k.mbox, s);
  }

  /** Conservation: all counts and all assign messages in flight together are the started live tasks. */
  lemma NothingLost(sys: Sys)
    requires Reachable(sys)
    ensures Accounted(sys.workers, |sys.workers|)
         == |set t: TaskId | t < |sys.tasks| && sys.tasks[t].place != Unstarted && sys.tasks[t].place != Gone|
  {
    ReachableInv(sys);
    forall w | 0 <= w < |sys.workers| ensures Tally(sys.workers[w]) == |Located(sys.tasks, w)| + |InFlight(sys.tasks, w)| {
      TallyIsLive(sys, w);
    }
    AccountedIsLive(sys.workers, sys.tasks, |sys.workers|);
    forall t: TaskId | t < |sys.tasks| && sys.tasks[t].place != Unstarted && sys.tasks[t].place != Gone
      ensures sys.tasks[t].place.w < |sys.workers|
    {
      TaskAt(sys, t);
    }
    assert LiveBelow(sys.tasks, |sys.workers|)
        == set t: TaskId | t < |sys.tasks| && sys.tasks[t].place != Unstarted && sys.tasks[t].place != Gone;
  }
}
