/**
  When a task of the decentralised workers can be begun while its stack is in use: exactly, never,
  and a run where it is.
 */
module DecenStackGuarantees {
  import opened Decen
  import opened DecenRuns
  import opened DecenStack

  /** A dispatcher's own task leaves it exactly in an action that sends it away. */
  lemma HomeIff(sys: Sys, a: Action, w: WorkerId)
    requires Reachable(sys) && Enabled(sys, a) && w < |sys.workers| && Home(sys, w)
    ensures |Apply(sys, a).workers| == |sys.workers|
    ensures Home(Apply(sys, a), w) <==> !SendsOwnTask(sys, a, w)
  {
    ReachableInv(sys);
    HomeStep(sys, a, w);
  }

  /** In a run in which no dispatcher sends its own task away, no task is begun on one worker while another is still on its stack. */
  lemma NoSharedStack(s0: Sys, acts: seq<Action>, t: TaskId, v: WorkerId, w: WorkerId)
    requires Init(s0) && Legal(s0, acts) && KeepsOwnTasks(s0, acts)
    ensures !Shared(After(s0, acts), t, v, w)
  {
    InitInv(s0);
    SafeRun(s0, acts);
  }

  /** Without migration, or with random migration, every run is of that kind. */
  lemma NoSharedStackByMechanism(s0: Sys, acts: seq<Action>, t: TaskId, v: WorkerId, w: WorkerId)
    requires Init(s0) && Legal(s0, acts) && s0.mech != WaitProp
    ensures !Shared(After(s0, acts), t, v, w)
  {
    MechanismKeeps(s0, acts);
    NoSharedStack(s0, acts, t, v, w);
  }

  /** Some continuation of the run has another worker on the stack of t while w is still on it. */
  ghost predicate CanCollide(sys: Sys, t: TaskId, w: WorkerId) {
    exists acts, v :: Collides(sys, acts, t, v, w)
  }

  ghost predicate Collides(sys: Sys, acts: seq<Action>, t: TaskId, v: WorkerId, w: WorkerId) {
    Legal(sys, acts) && Shared(After(sys, acts), t, v, w)
  }

  /**
    After a dispatcher has sent its own task away, some continuation begins that task on another
    worker while the dispatcher is still on its stack, exactly if the target has not left its loop.
   */
  lemma CollisionIff(sys: Sys, a: Action, w: WorkerId)
    requires Reachable(sys) && Safe(sys) && Enabled(sys, a) && w < |sys.workers| && SendsOwnTask(sys, a, w)
    ensures var y := Readied(sys, a).target;
      && 0 <= y < |sys.workers|
      && (CanCollide(Apply(sys, a), sys.workers[w].pc.t, w) <==> !sys.workers[y].pc.Ended?)
  {
    ReachableInv(sys);
    OwnTaskStays(sys, a, w);
    ApplyInv(sys, a);
    var t, y, sys' := sys.workers[w].pc.t, Readied(sys, a).target, Apply(sys, a);
    WorkerCount(sys, a);
    OthersStay(sys, a, w, y);
    if !sys.workers[y].pc.Ended? {
      var acts := CanBegin(sys', t, y);
      assert Collides(sys', acts, t, y, w);
    } else {
      forall acts, v ensures !Collides(sys', acts, t, v, w) {
        if Collides(sys', acts, t, v, w) {
          AfterCount(sys', acts);
          assert !Shared(sys, t, v, w);
          OthersStay(sys, a, w, v);
          StrandedAlone(sys', acts, t, v);
        }
      }
    }
  }

  // ---------------------------------------------------------------------------
  // A run that shares a stack

  lemma {:induction false} ReachableRun(sys: Sys, acts: seq<Action>)
    requires Reachable(sys) && Legal(sys, acts)
    ensures Reachable(After(sys, acts))
    decreases |acts|
  {
    if acts != [] {
      ReachableStep(sys, acts[0]);
      ReachableRun(Apply(sys, acts[0]), acts[1..]);
    }
  }

  /** The only task has blocked, and has been woken while the dispatcher is still on its stack. */
  lemma WokenOnStack() returns (sys: Sys)
    ensures Reachable(sys)
    ensures sys == Pair(WaitProp, InitWorker().(pc := Drain(0), num := 1, mbox := [Wakeup(0)]), InitWorker(), [Task(BLOCKED, 0, false, Blocked(0))])
  {
    var k := InitWorker();
    var s := Pair(WaitProp, k, k, []);
    assert IsRun(s, [], s);
    var s0 := RunsFirst(s, k);
    ReachableStep(s0, Step(0, Block, 0));
    var s1 := Pair(WaitProp, k.(pc := WillBlock(0), num := 1), k, [Task(RUNNING, 0, true, On(0))]);
    assert Apply(s0, Step(0, Block, 0)) == s1;
    ReachableStep(s1, Step(0, Block, 0));
    var s2 := Pair(WaitProp, k.(pc := Drain(0), num := 1), k, [Task(BLOCKED, 0, true, Blocked(0))]);
    assert Apply(s1, Step(0, Block, 0)) == s2;
    ReachableStep(s2, WakeFromOutside(0));
    sys := Apply(s2, WakeFromOutside(0));
    assert [] + [Wakeup(0)] == [Wakeup(0)];
    assert sys.workers == [k.(pc := Drain(0), num := 1, mbox := [Wakeup(0)]), k];
  }

  /** A run of two workers in which both are on the stack of the first task */
  lemma SharedStack() returns (sys: Sys, v: WorkerId)
    ensures Reachable(sys) && |sys.workers| == 2 && Shared(sys, 0, v, 0)
  {
    var s := WokenOnStack();
    var a := Step(0, Yield(1), 0);
    ReachableStep(s, a);
    CollisionIff(s, a, 0);
    var acts, u :| Collides(Apply(s, a), acts, 0, u, 0);
    ReachableRun(Apply(s, a), acts);
    sys, v := After(Apply(s, a), acts), u;
    AfterCount(Apply(s, a), acts);
  }
}
