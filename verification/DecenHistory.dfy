/** Whole runs of the decentralised workers: a task is gone exactly when it has exited. */
module DecenHistory {
  import opened Decen
  import opened DecenRuns
  import opened DecenLaws

  /** The running task exits. */
  predicate Exits(sys: Sys, a: Action, t: TaskId) {
    a.Step? && a.choice.Exit? && a.w < |sys.workers| && sys.workers[a.w].pc == Run(t)
  }

  /** t has exited in the run. */
  ghost predicate HasExited(states: seq<Sys>, acts: seq<Action>, t: TaskId)
    requires |states| > |acts|
  {
    exists i :: 0 <= i < |acts| && Exits(states[i], acts[i], t)
  }

  lemma RunsStep(sys: Sys, w: WorkerId, choice: Choice, next: TaskId, t: TaskId)
    requires Inv(sys) && Enabled(sys, Step(w, choice, next)) && sys.workers[w].pc == Run(t)
    ensures t < |sys.tasks| == |Apply(sys, Step(w, choice, next)).tasks|
    ensures Apply(sys, Step(w, choice, next)).tasks[t].place == Gone <==> choice.Exit?
  {
    HeldTask(sys, w);
    if choice.Wake? {
      WakeRunsOn(sys, w, t, choice.u, choice.target);
    } else {
      RunOutcome(sys, w, t, choice);
    }
  }

  /** A task on a worker that is not running goes on. */
  lemma HeldStep(sys: Sys, w: WorkerId, choice: Choice, next: TaskId, t: TaskId)
    requires Inv(sys) && Enabled(sys, Step(w, choice, next)) && Holds(sys.workers[w].pc, t) && !sys.workers[w].pc.Run?
    ensures t < |sys.tasks| == |Apply(sys, Step(w, choice, next)).tasks|
    ensures Apply(sys, Step(w, choice, next)).tasks[t].place in {On(w), Blocked(w)}
  {
    HeldTask(sys, w);
    LoopLaw(sys, w, choice, next);
  }

  lemma GoneStep(sys: Sys, a: Action, t: TaskId)
    requires Inv(sys) && Enabled(sys, a) && t < |sys.tasks|
    ensures t < |Apply(sys, a).tasks|
    ensures Apply(sys, a).tasks[t].place == Gone <==> sys.tasks[t].place == Gone || Exits(sys, a, t)
  {
    ActionPlaces(sys, a, t);
    if Exits(sys, a, t) {
      RunsStep(sys, a.w, a.choice, a.next, t);
    } else if sys.tasks[t].place == Gone {
      DormantStays(sys, a, t);
    } else if Apply(sys, a).tasks[t].place == Gone {
      LeftWorker(sys, a, t);
    }
  }

  /** Nothing but its exit takes a task from its worker for good. */
  lemma LeftWorker(sys: Sys, a: Action, t: TaskId)
    requires Inv(sys) && Enabled(sys, a) && t < |sys.tasks| && !Exits(sys, a, t) && sys.tasks[t].place != Gone
    ensures t < |Apply(sys, a).tasks| && Apply(sys, a).tasks[t].place != Gone
  {
    ActionPlaces(sys, a, t);
    if Apply(sys, a).tasks[t].place == Gone {
      var w := Actor(a);
      assert sys.tasks[t].place == On(w);
      TaskAt(sys, t);
      assert At(t, sys.tasks[t], w, sys.workers[w]);
      if a.Step? {
        if sys.workers[w].pc.Run? {
          RunsStep(sys, w, a.choice, a.next, t);
        } else {
          HeldStep(sys, w, a.choice, a.next, t);
        }
      }
    }
  }

  /** One action, as far as the end of t is concerned */
  ghost predicate EndStep(sys: Sys, a: Action, sys': Sys, t: TaskId) {
    && |sys.tasks| <= |sys'.tasks|
    && (t < |sys.tasks| ==> (sys'.tasks[t].place == Gone <==> sys.tasks[t].place == Gone || Exits(sys, a, t)))
    && (t >= |sys.tasks| ==> !Exits(sys, a, t) && (t < |sys'.tasks| ==> sys'.tasks[t].place != Gone))
  }

  lemma ActionEnds(sys: Sys, a: Action, t: TaskId)
    requires Inv(sys) && Enabled(sys, a)
    ensures EndStep(sys, a, Apply(sys, a), t)
  {
    TaskCount(sys, a);
    if t < |sys.tasks| {
      GoneStep(sys, a, t);
    } else if Exits(sys, a, t) {
      HeldTask(sys, a.w);
    }
  }

  /** The states a run from sys goes through */
  ghost function Through(sys: Sys, acts: seq<Action>): (states: seq<Sys>)
    requires Legal(sys, acts)
    ensures |states| == |acts| + 1 && states[0] == sys && states[|acts|] == After(sys, acts)
    ensures forall i :: 0 <= i < |acts| ==> Enabled(states[i], acts[i]) && states[i + 1] == Apply(states[i], acts[i])
    decreases |acts|
  {
    if acts == [] then [sys] else [sys] + Through(Apply(sys, acts[0]), acts[1..])
  }

  lemma {:induction false} ThroughInv(sys: Sys, acts: seq<Action>, i: nat)
    requires Inv(sys) && Legal(sys, acts) && i <= |acts|
    ensures Inv(Through(sys, acts)[i])
  {
    if i > 0 {
      ThroughInv(sys, acts, i - 1);
      ApplyInv(Through(sys, acts)[i - 1], acts[i - 1]);
    }
  }

  lemma {:induction false} EndsFold(states: seq<Sys>, acts: seq<Action>, t: TaskId)
    requires |states| > |acts| && states[0].tasks == []
    requires forall i :: 0 <= i < |acts| ==> EndStep(states[i], acts[i], states[i + 1], t)
    ensures if t < |states[|acts|].tasks| then states[|acts|].tasks[t].place == Gone <==> HasExited(states, acts, t)
            else !HasExited(states, acts, t)
    decreases |acts|
  {
    if acts != [] {
      var n := |acts| - 1;
      EndsFold(states, acts[..n], t);
      assert EndStep(states[n], acts[n], states[n + 1], t);
      assert HasExited(states, acts, t) <==> HasExited(states, acts[..n], t) || Exits(states[n], acts[n], t);
    }
  }

  /** In every run, a task is gone exactly if it has exited. */
  lemma GoneIffExited(s0: Sys, acts: seq<Action>, t: TaskId)
    requires Init(s0) && Legal(s0, acts) && t < |After(s0, acts).tasks|
    ensures After(s0, acts).tasks[t].place == Gone <==> HasExited(Through(s0, acts), acts, t)
  {
    InitInv(s0);
    var states := Through(s0, acts);
    forall i | 0 <= i < |acts| ensures EndStep(states[i], acts[i], states[i + 1], t) {
      ThroughInv(s0, acts, i);
      ActionEnds(states[i], acts[i], t);
    }
    EndsFold(states, acts, t);
  }
}
