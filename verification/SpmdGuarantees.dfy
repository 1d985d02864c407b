/** What the SPMD barriers and the request queue of module Spmd guarantee in every run. */
module SpmdGuarantees {
  import opened Ring
  import opened Spmd

  /**
    All workers execute the same requests, in queue order, and no worker is ever more than one
    request ahead of another.
   */
  lemma LockStep(st: State, v: WorkerId, w: WorkerId)
    requires Reachable(st) && v < N(st) && w < N(st)
    ensures |st.left| == |st.executed| == N(st)
    ensures st.executed[v] <= st.log && st.executed[w] <= st.log
    ensures |st.executed[v]| <= |st.executed[w]| + 1
    ensures st.left[v] <= st.left[w] + 1
  {
    ReachableInv(st);
    At(st, v);
    At(st, w);
    ExecutedGap(st, v, w);
  }

  lemma ExecutedGap(st: State, v: WorkerId, w: WorkerId)
    requires Inv(st) && v < N(st) && w < N(st)
    ensures |st.executed[v]| <= |st.executed[w]| + 1
  {
    At(st, v);
    At(st, w);
  }

  /** While the master is in its critical section nobody else can touch the queue. */
  lemma CriticalSectionIsExclusive(st: State, w: WorkerId, v: WorkerId)
    requires Reachable(st) && w < N(st) && v < N(st) && v != w
    requires st.pc[w].MasterWait? && st.pc[w].i + 1 == N(st)
    ensures st.pc[v] == AwaitStart(st.pc[w].r)
    ensures |st.sema| == N(st) && st.sema[v] == 0
    ensures !Enabled(st, Step(v)) && !Enabled(st, EnterHandler(v)) && forall task :: !Enabled(st, AppendRequest(v, task))
  {
    ReachableInv(st);
    AllEntered(st, w);
  }

  /**
    The master wakes the requesting task only after every other worker has left the request,
    even though start tokens of the next request may already be in other semaphores; the assert
    on its pending flag holds and tasks are woken in queue order.
   */
  lemma WakeupAfterAllLeft(st: State, w: WorkerId)
    requires Reachable(st) && Shape(st) && w < N(st) && st.pc[w].MasterStop? && st.pc[w].i + 1 == N(st)
    ensures var r := st.pc[w].r;
      var st' := StepWorker(st, w);
      && st.pending[w]
      && |st.woken| < |st.log| && r == st.log[|st.woken|]
      && st'.woken == st.woken + [r]
      && (forall x :: 0 <= x < N(st) && x != w ==> st.left[x] == |st.woken| + 1)
      && (forall x :: 0 <= x < N(st) ==> r in st.executed[x])
  {
    ReachableInv(st);
    At(st, w);
    AllLeft(st, w);
    assert HasUnfinished(st, w) by {
      assert st.log[st.g - 1].wid == w;
    }
    forall x | 0 <= x < N(st)
      ensures st.pc[w].r in st.executed[x]
    {
      At(st, x);
      assert st.log[..st.g][st.g - 1] == st.pc[w].r;
    }
  }

  /**
    LpelSpmdRequest: the assert on the pending flag holds, the slot it fills is free, qtail stays
    below 2N, and the filled slots stay a contiguous run from qhead holding the waiting requests.
   */
  lemma RequestFindsFreeSlot(st: State, w: WorkerId)
    requires Reachable(st) && Shape(st) && w < N(st) && st.pc[w] == Outside
    ensures !st.pending[w]
    ensures st.queue[st.qtail % N(st)] == None
    ensures st.qtail + 1 <= 2 * N(st) - 1
  {
    ReachableInv(st);
    TailSlotIsFree(st, w);
  }

  lemma RingHoldsWaitingRequests(st: State, s: nat)
    requires Reachable(st) && Shape(st) && s < N(st)
    ensures st.g <= |st.log| <= st.g + N(st)
    ensures st.queue[s] == if Ahead(s, st.qhead, N(st)) < |st.log| - st.g
                           then Some(st.log[st.g + Ahead(s, st.qhead, N(st))]) else None
    ensures st.qtail % N(st) == (st.qhead + (|st.log| - st.g)) % N(st)
    ensures st.qtail <= 2 * N(st) - 1
  {
    ReachableInv(st);
    WrapIsModular(st.qtail, N(st));
    WrapIsModular(st.qhead + (|st.log| - st.g), N(st));
  }

  /** How far a worker has come in the current request */
  function Phase(pc: Pc, n: nat): nat {
    match pc
    case Outside => 0
    case Requested => 0
    case Load => 1
    case Copy(_) => 2
    case MasterWait(_, _, i) => 3 + i
    case MasterPost(_, i) => 4 + n + i
    case Enter(_) => 3
    case AwaitStart(_) => 4
    case Execute(_) => 5 + 2 * n
    case MasterStop(_, i) => 6 + 2 * n + i
    case Leave(_) => 6 + 2 * n
  }

  /**
    Every step of a worker in the handler is progress: it comes further in the request, executing it
    exactly when it leaves Execute, or has gone through it and looks for the next, or leaves the handler.
   */
  lemma StepIsProgress(st: State, w: WorkerId)
    requires Shape(st) && Enabled(st, Step(w))
    ensures var st', pc := Apply(st, Step(w)), st.pc[w];
      && |st'.pc| == |st.pc| && |st'.left| == |st.left| && |st'.executed| == |st.executed|
      && var pc' := st'.pc[w];
      && st'.executed[w] == st.executed[w] + (if pc.Execute? then [pc.r] else [])
      && (if st'.left[w] == st.left[w] then Phase(pc', N(st)) > Phase(pc, N(st)) || (pc.Copy? && pc' == Outside)
          else st'.left[w] == st.left[w] + 1 && pc' == Load && (pc.Leave? || pc.MasterStop?))
  {
    assert PcInRange(st.pc[w], N(st));
  }

  /** A worker with a pending request comes into the handler by its next step there. */
  lemma EntryLaw(st: State, w: WorkerId, task: nat)
    requires Shape(st) && w < N(st)
    ensures Enabled(st, EnterHandler(w)) ==> Apply(st, EnterHandler(w)) == st.(pc := st.pc[w := Load])
    ensures Enabled(st, AppendRequest(w, task)) ==>
              var st' := Apply(st, AppendRequest(w, task)); |st'.pc| == N(st) && st'.pc[w] == Requested && |st'.pending| == N(st) && st'.pending[w]
  {
  }

  // ---------------------------------------------------------------------------
  // The requests, told from the calls alone

  /** The calls of LpelSpmdRequest, in order: on which worker, by which task */
  function Requests(acts: seq<Action>): seq<Request> {
    if acts == [] then [] else Requests(acts[..|acts| - 1]) + RequestOf(acts[|acts| - 1])
  }

  function RequestOf(a: Action): seq<Request> {
    match a
    case AppendRequest(w, task) => [Request(w, task)]
    case _ => []
  }

  lemma LogStep(st: State, a: Action)
    requires Shape(st) && Enabled(st, a)
    ensures Apply(st, a).log == st.log + RequestOf(a)
  {
    match a
    case AppendRequest(w, task) =>
    case EnterHandler(w) =>
    case Step(w) => assert PcInRange(st.pc[w], N(st));
  }

  lemma RunPrefix(states: seq<State>, acts: seq<Action>, n: nat)
    requires IsRun(states, acts) && n <= |acts|
    ensures IsRun(states[..n + 1], acts[..n])
  {
  }

  lemma {:induction false} LogIsRequests(states: seq<State>, acts: seq<Action>)
    requires IsRun(states, acts)
    ensures states[|acts|].log == Requests(acts)
    decreases |acts|
  {
    if acts != [] {
      var n := |acts| - 1;
      RunPrefix(states, acts, n);
      LogIsRequests(states[..n + 1], acts[..n]);
      LogStep(states[n], acts[n]);
    }
  }

  /** The k-th slot from qhead on, around the ring */
  function SlotAhead(st: State, k: nat): Option<Request>
    requires Shape(st) && k <= N(st)
  {
    var s := Wrap(st.qhead + k, N(st));
    if s < N(st) then st.queue[s] else None
  }

  /** The requests rs are served in order: so far woken and executed a first part of them, the next ones in the slots from qhead on. */
  ghost predicate InOrder(st: State, rs: seq<Request>)
    requires Shape(st)
  {
    && st.woken <= rs && st.g <= |rs| <= st.g + N(st)
    && (forall w :: 0 <= w < N(st) ==> st.executed[w] <= rs)
    && (forall k :: 0 <= k < |rs| - st.g ==> SlotAhead(st, k) == Some(rs[st.g + k]))
  }

  /**
    In every run: the tasks are woken in the order in which they asked, the i-th woken is the i-th that
    asked; every worker has executed the first requests in that order; and the slots from qhead on hold
    the next ones.
   */
  lemma ServedInRequestOrder(states: seq<State>, acts: seq<Action>)
    requires IsRun(states, acts)
    ensures Shape(states[|acts|]) && InOrder(states[|acts|], Requests(acts))
  {
    LogIsRequests(states, acts);
    RunInv(states, acts, |acts|);
    LogInOrder(states[|acts|]);
  }

  lemma LogInOrder(st: State)
    requires Inv(st)
    ensures InOrder(st, st.log)
  {
    PrefixesOfLog(st, 0);
    forall w | 0 <= w < N(st) ensures st.executed[w] <= st.log {
      PrefixesOfLog(st, w);
    }
    forall k | 0 <= k < |st.log| - st.g ensures SlotAhead(st, k) == Some(st.log[st.g + k]) {
      WaitingAt(st, k);
    }
  }

  lemma PrefixesOfLog(st: State, w: WorkerId)
    requires Inv(st) && w < N(st)
    ensures st.woken <= st.log && st.executed[w] <= st.log && st.g <= |st.log| <= st.g + N(st)
  {
    At(st, w);
  }

  lemma WaitingAt(st: State, k: nat)
    requires Shape(st) && RingInv(st) && k < |st.log| - st.g
    ensures SlotAhead(st, k) == Some(st.log[st.g + k])
  {
    var s := Wrap(st.qhead + k, N(st));
    assert Ahead(s, st.qhead, N(st)) == k && st.queue[s] == Live(st, k);
  }

  /** A worker leaves the handler exactly when it looks for the next request and none waits. */
  lemma LeavesHandlerIff(st: State, w: WorkerId)
    requires Reachable(st) && Shape(st) && Enabled(st, Step(w))
    ensures |Apply(st, Step(w)).pc| == N(st)
    ensures Apply(st, Step(w)).pc[w] == Outside <==> st.pc[w].Copy? && st.g == |st.log|
  {
    ReachableInv(st);
    At(st, w);
    assert st.queue[st.qhead] == Live(st, 0);
  }

  // ---------------------------------------------------------------------------
  // Freedom from deadlock

  /** A worker of the removed request that has been released finds its token. */
  lemma ReleasedCanProceed(st: State, w: WorkerId)
    requires Inv(st) && w < N(st) && st.pc[w].AwaitStart? && st.left[w] + 1 == st.g && Released(st, w)
    ensures st.sema[w] > 0
  {
    At(st, w);
  }

  /** A master whose last worker has posted finds a token. */
  lemma MasterCanProceed(st: State, w: WorkerId)
    requires Inv(st) && w < N(st)
    requires st.pc[w].MasterWait? || st.pc[w].MasterStop?
    requires st.pc[w].i + 1 < N(st)
    requires forall x :: 0 <= x < N(st) && x != w ==> HasPosted(st, x, w)
    requires st.pc[w].MasterWait? ==> TookRelease(st, w) ==> Released(st, w)
    ensures st.sema[w] > 0
  {
    At(st, w);
    assert Posters(st, w) == Others(w, N(st));
  }

  /** If every worker is inside the handler, some worker can take a step. */
  lemma NoDeadlock(st: State) returns (w: WorkerId)
    requires Reachable(st) && Shape(st)
    requires forall x :: 0 <= x < N(st) ==> st.pc[x] != Outside && st.pc[x] != Requested
    ensures Enabled(st, Step(w))
  {
    ReachableInv(st);
    if x :| 0 <= x < N(st) && !Waiting(st, x) {
      w := x;
    } else if x :| 0 <= x < N(st) && st.left[x] + 1 == st.g {
      At(st, x);
      w := SomeoneCanStop(st);
    } else {
      w := StartMasterCanProceed(st);
    }
  }

  /** Everybody waits and somebody is still in the removed request: a released worker or its master has a token. */
  lemma SomeoneCanStop(st: State) returns (w: WorkerId)
    requires Inv(st) && forall x :: 0 <= x < N(st) ==> Waiting(st, x)
    requires 0 < st.g <= |st.log| && exists x :: 0 <= x < N(st) && st.left[x] + 1 == st.g
    ensures w < N(st) && st.sema[w] > 0
  {
    var m := st.log[st.g - 1].wid;
    At(st, m);
    assert Waiting(st, m);
    if x :| 0 <= x < N(st) && x != m && st.left[x] + 1 == st.g {
      At(st, x);
      assert Waiting(st, x);
      w := x;
      ReleasedCanProceed(st, x);
    } else {
      w := m;
      forall x | 0 <= x < N(st) && x != m
        ensures HasPosted(st, x, m)
      {
        At(st, x);
      }
      MasterCanProceed(st, m);
    }
  }

  /** Everybody waits for the head request: its master has a token. */
  lemma StartMasterCanProceed(st: State) returns (w: WorkerId)
    requires Inv(st) && forall x :: 0 <= x < N(st) ==> Waiting(st, x)
    requires forall x :: 0 <= x < N(st) ==> st.left[x] + 1 != st.g
    ensures w < N(st) && st.sema[w] > 0
  {
    At(st, 0);
    assert Waiting(st, 0);
    w := st.log[st.g].wid;
    At(st, w);
    assert Waiting(st, w);
    forall x | 0 <= x < N(st)
      ensures st.left[x] == st.g && (x != w ==> HasPosted(st, x, w))
    {
      At(st, x);
      assert Waiting(st, x);
    }
    MasterCanProceed(st, w);
  }
}
