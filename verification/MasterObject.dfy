/**
  The master's handlers as they are written (hrc_worker_op.c): loops over waitworkers and over a
  stream list that update the master's context in place. Each method does what the function of
  module Master says.
 */
module MasterObject {
  import opened TaskQueue
  import opened Master
  import opened MasterGuarantees

  class MasterContext {
    var mbox: seq<Msg>
    var wbox: seq<seq<WorkerMsg>>
    var waiting: array<bool>
    var ready: seq<TaskId>
    var info: Table
    var limit: bool
    var terminate: bool
    var tasks: seq<Task>
    ghost var rest: Sys

    /** The state of the system; what the master does not touch comes from `rest`. */
    ghost function State(): Sys
      reads this, waiting
    {
      rest.(mbox := mbox, wbox := wbox, waiting := waiting[..], ready := ready, info := info, limit := limit,
            terminate := terminate, tasks := tasks)
    }

    ghost predicate Valid()
      reads this, waiting
    {
      Shape(State())
    }

    constructor (numWorkers: nat, demandLimit: bool)
      ensures Valid() && fresh(waiting)
      ensures var sys := State(); sys.mbox == [] && sys.ready == [] && sys.tasks == [] && !sys.terminate && sys.limit == demandLimit
      ensures waiting.Length == numWorkers && forall w :: 0 <= w < numWorkers ==> !waiting[w] && wbox[w] == []
    {
      waiting := new bool[numWorkers](i => false);
      wbox := seq(numWorkers, i => []);
      mbox, ready, info, limit, terminate, tasks := [], [], map[], demandLimit, false, [];
      rest := Sys([], [], [], [], map[], demandLimit, false, false, false, seq(numWorkers, i => Starting), []);
    }

    /** sendTask */
    method SendTask(w: WorkerId, t: TaskId)
      requires Valid() && w < |wbox| && t < |tasks|
      modifies this
      ensures waiting == old(waiting) && Valid() && State() == Send(old(State()), w, t)
    {
      wbox := wbox[w := wbox[w] + [Assign(t)]];
      tasks := tasks[t := tasks[t].(place := Assigned(w))];
    }

    /** servePendingReq: the lowest waiting worker gets t; -1 if none is waiting. */
    method ServePendingReq(t: TaskId) returns (r: int)
      requires Valid() && t < |tasks|
      modifies this, waiting
      ensures waiting == old(waiting) && Valid()
      ensures var sys := old(State()); var i := FirstWaiting(sys.waiting);
        if i < |sys.waiting| then r == i && State() == Send(sys.(waiting := sys.waiting[i := false]), i, t)
        else r == -1 && State() == sys
    {
      var i := 0;
      ghost var flags := waiting[..];
      while i < waiting.Length
        invariant i <= waiting.Length && unchanged(this) && waiting[..] == flags
        invariant forall j :: 0 <= j < i ==> !flags[j]
      {
        if waiting[i] {
          assert FirstWaiting(flags) == i;
          waiting[i] := false;
          assert waiting[..] == flags[i := false];
          SendTask(i, t);
          return i;
        }
        i := i + 1;
      }
      r := -1;
    }

    /** LpelTaskqueuePush after the state is set */
    method Push(t: TaskId)
      requires Valid() && t < |tasks|
      modifies this
      ensures waiting == old(waiting) && Valid() && State() == Enqueue(old(State()), t)
    {
      tasks := tasks[t := tasks[t].(state := INQUEUE, place := Queue)];
      ready := TaskQueue.Push(ready, t, info);
    }

    /** LpelTaskUpdateValid; `computed` is what the record counts of the streams say. */
    method UpdateValidity(t: TaskId, computed: bool) returns (valid: bool)
      requires Valid()
      modifies this
      ensures waiting == old(waiting) && Valid() && tasks == old(tasks)
      ensures State() == UpdateValid(old(State()), t, computed) && valid == Key(info, t).valid
    {
      if limit {
        info := SetValid(info, t, computed);
      }
      valid := Key(info, t).valid;
    }

    /** processTaskReady */
    method ProcessTaskReady(t: TaskId, computed: bool, prio: int)
      requires Valid() && t < |tasks|
      modifies this, waiting
      ensures waiting == old(waiting) && Valid() && State() == ProcessReady(old(State()), t, computed, prio)
    {
      var valid := UpdateValidity(t, computed);
      if !valid {
        Push(t);
        return;
      }
      var r := ServePendingReq(t);
      if r < 0 {
        info := SetPrio(info, t, prio);
        Push(t);
      }
    }

    /** updatePriorityList over the neighbours in list order */
    method UpdatePriorityList(updates: seq<Update>)
      requires Valid()
      modifies this
      ensures waiting == old(waiting) && Valid() && State() == UpdateNeighbours(old(State()), updates)
    {
      UpdateNeighboursShape(State(), updates);
      var i := 0;
      while i < |updates|
        invariant i <= |updates| && waiting == old(waiting) && Valid()
        invariant UpdateNeighbours(State(), updates[i..]) == UpdateNeighbours(old(State()), updates)
      {
        var x := updates[i];
        assert updates[i..][0] == x && updates[i..][1..] == updates[i + 1..];
        if x.u < |tasks| && tasks[x.u].state == INQUEUE && x.u in ready {
          var _ := UpdateValidity(x.u, x.valid);
          if x.reprioritise {
            ready, info := UpdatePriority(ready, x.u, x.np, info), SetPrio(info, x.u, x.np);
          }
        }
        i := i + 1;
      }
    }

    /** The state of the first queued task, as OnePlace of module MasterGuarantees says it */
    ghost predicate HeadQueued()
      reads this
    {
      ready != [] && ready[0] < |tasks| ==> tasks[ready[0]].state == INQUEUE
    }

    /** The end of updateNeighours: tries to serve a valid head. */
    method ServeTop()
      requires Valid() && HeadQueued()
      modifies this, waiting
      ensures waiting == old(waiting) && Valid() && State() == ServeHead(old(State()))
    {
      if ready != [] && ready[0] < |tasks| {
        var top := ready[0];
        if Key(info, top).valid {
          ghost var sys := State();
          tasks := tasks[top := tasks[top].(state := READY)];
          var r := ServePendingReq(top);
          if r >= 0 {
            ready := Occupy(ready, top, info);
          } else {
            tasks := tasks[top := tasks[top].(state := INQUEUE)];
            assert tasks == sys.tasks;
          }
        }
      }
    }

    /** processTaskReq */
    method ProcessTaskReq(w: WorkerId)
      requires Valid() && w < waiting.Length
      modifies this, waiting
      ensures waiting == old(waiting) && Valid() && State() == ProcessRequest(old(State()), w)
      ensures (old(ready) == [] || !Key(info, old(ready)[0]).valid) ==>
                waiting[w] && ready == old(ready) && tasks == old(tasks) && wbox == old(wbox)
      ensures !(old(ready) == [] || !Key(info, old(ready)[0]).valid) && old(ready)[0] < |tasks| ==>
                && waiting[..] == old(waiting[..]) && wbox == old(wbox)[w := old(wbox)[w] + [Assign(old(ready)[0])]]
                && multiset(ready) == multiset(old(ready)) - multiset{old(ready)[0]}
    {
      if ready == [] || ready[0] >= |tasks| || !Key(info, ready[0]).valid {
        ghost var flags := waiting[..];
        waiting[w] := true;
        assert waiting[..] == flags[w := true];
      } else {
        var t := ready[0];
        tasks := tasks[t := tasks[t].(state := READY)];
        SendTask(w, t);
        OccupyKeeps(ready, t, info);
        ready := Occupy(ready, t, info);
      }
    }
  
    /** The switch on a returned task */
    method HandleReturned(t: TaskId, computed: bool, prio: int)
      requires Valid() && t < |tasks|
      modifies this, waiting
      ensures waiting == old(waiting) && Valid() && State() == ProcessReturned(old(State()), t, computed, prio)
    {
      if tasks[t].state == BLOCKED {
        if tasks[t].wakenup {
          tasks := tasks[t := tasks[t].(wakenup := false)];
          tasks := tasks[t := tasks[t].(state := READY, unblocks := tasks[t].unblocks + 1)];
          ProcessTaskReady(t, computed, prio);
        } else {
          tasks := tasks[t := tasks[t].(state := RETURNED, place := Parked)];
        }
      } else if tasks[t].state == READY {
        ProcessTaskReady(t, computed, prio);
      } else {
        tasks := tasks[t := tasks[t].(place := Destroyed)];
      }
    }

    /** The handler of a RETURN message */
    method HandleReturnMsg(t: TaskId, updates: seq<Update>, computed: bool, prio: int)
      requires Valid() && t < |tasks| && t !in ready
      requires forall u :: u in ready ==> u < |tasks| && tasks[u].state == INQUEUE
      modifies this, waiting
      ensures waiting == old(waiting) && Valid() && State() == HandleReturn(old(State()), t, updates, computed, prio)
    {
      tasks := tasks[t := tasks[t].(place := Hand)];
      ghost var sys := State();
      UpdateNeighboursShape(sys, updates);
      UpdatePriorityList(updates);
      if ready != [] && ready[0] !in sys.ready {
        UpdateNeighboursReady(sys, updates, ready[0]);
      }
      ServeTop();
      HandleReturned(t, computed, prio);
    }

    /** The handler of a WAKEUP message */
    method HandleWakeupMsg(t: TaskId, computed: bool, prio: int)
      requires Valid() && t < |tasks|
      modifies this, waiting
      ensures waiting == old(waiting) && Valid() && State() == HandleWakeup(old(State()), t, computed, prio)
    {
      if tasks[t].state != RETURNED {
        tasks := tasks[t := tasks[t].(wakenup := true)];
        return;
      }
      tasks := tasks[t := tasks[t].(place := Hand)];
      tasks := tasks[t := tasks[t].(state := READY, unblocks := tasks[t].unblocks + 1)];
      ProcessTaskReady(t, computed, prio);
    }

    /** The handler of an ASSIGN message */
    method HandleNewTaskMsg(t: TaskId)
      requires Valid() && t < |tasks|
      modifies this, waiting
      ensures waiting == old(waiting) && Valid() && State() == HandleNewTask(old(State()), t)
    {
      tasks := tasks[t := tasks[t].(place := Hand, state := READY)];
      var r := ServePendingReq(t);
      if r < 0 {
        Push(t);
      }
    }
  
    /** The queued tasks and the task of m are what OnePlace and StateAssertsHold of module MasterGuarantees say. */
    ghost predicate Expects(m: Msg)
      requires Valid()
      reads this, waiting
    {
      && MsgOk(State(), m)
      && (forall u :: u in ready ==> u < |tasks| && tasks[u].state == INQUEUE)
      && (m.Return? ==> m.t !in ready)
    }

    /** The switch on the kind of message */
    method HandleMsg(m: Msg, updates: seq<Update>, computed: bool, prio: int)
      requires Valid() && Expects(m)
      modifies this, waiting
      ensures waiting == old(waiting) && Valid() && State() == Handle(old(State()), m, updates, computed, prio)
    {
      match m {
        case NewTask(t) => HandleNewTaskMsg(t);
        case Return(t) => HandleReturnMsg(t, updates, computed, prio);
        case Wakeup(t) => HandleWakeupMsg(t, computed, prio);
        case Request(w) => ProcessTaskReq(w);
        case Terminate => terminate := true;
      }
    }

    /** One turn of MasterLoop; done says that the loop ends. */
    method Turn(updates: seq<Update>, computed: bool, prio: int) returns (done: bool)
      requires Valid() && mbox != [] && Expects(mbox[0])
      modifies this, waiting
      ensures waiting == old(waiting) && Valid()
      ensures State().(stopped := done) == StepMaster(old(State()), updates, computed, prio)
    {
      var m := mbox[0];
      mbox := mbox[1..];
      HandleMsg(m, updates, computed, prio);
      done := terminate && ready == [];
    }
  }

  /** In every reachable state the master's next turn meets the conditions of Turn. */
  lemma TurnReady(sys: Sys)
    requires Reachable(sys) && Shape(sys) && sys.mbox != []
    ensures MsgOk(sys, sys.mbox[0])
    ensures forall u :: u in sys.ready ==> u < |sys.tasks| && sys.tasks[u].state == INQUEUE
    ensures sys.mbox[0].Return? ==> sys.mbox[0].t !in sys.ready
  {
    ReachableInv(sys);
    StateAssertsHold(sys);
    forall u | u in sys.ready ensures u < |sys.tasks| && sys.tasks[u].state == INQUEUE {
      OnePlace(sys, u);
    }
  }
}
