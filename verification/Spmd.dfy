/**
  The SPMD extension of spmdext.c: workers pass together through a queue of requests, held in
  step by one counting semaphore per worker. One action is one semaphore operation, one access
  to the queue, or the master's critical section. Appending a request (reserving the slot and
  filling it) is taken as one action.
 */
module Spmd {
  import opened Ring

  type WorkerId = nat

  datatype Option<+T> = None | Some(value: T)

  /** spmdreq_t: the requesting worker and task. */
  datatype Request = Request(wid: WorkerId, task: nat)

  /** What a worker does next. `r` is its local copy of the current request. */
  datatype Pc =
    | Outside                                          // runs tasks
    | Requested                                        // has appended a request, will enter the handler
    | Load                                             // reads qhead
    | Copy(head: nat)                                  // copies req_queue[head]
    | MasterWait(r: Request, head: nat, i: nat)        // i of N-1 start tokens taken; then the critical section
    | MasterPost(r: Request, i: nat)                   // releases worker i
    | Enter(r: Request)                                // posts the master's semaphore
    | AwaitStart(r: Request)
    | Execute(r: Request)
    | Leave(r: Request)                                // posts the master's semaphore
    | MasterStop(r: Request, i: nat)                   // i of N-1 stop tokens taken; then wakes the task

  /**
    The shared variables of spmdext.c and the workers' program counters. The rest records history:
    `log` every request ever appended, `g` how many of them the masters have removed from the
    queue, `left[w]` how many worker w has gone all the way through, `executed[w]` the requests
    it executed, `woken` the requests whose task has been woken.
   */
  datatype State = State(
    queue: seq<Option<Request>>, qhead: nat, qtail: nat,
    pending: seq<bool>, sema: seq<nat>, pc: seq<Pc>,
    log: seq<Request>, g: nat, left: seq<nat>, executed: seq<seq<Request>>, woken: seq<Request>)

  datatype Action =
    | AppendRequest(w: WorkerId, task: nat)
    | EnterHandler(w: WorkerId)
    | Step(w: WorkerId)

  function N(st: State): nat { |st.pc| }

  ghost predicate Shape(st: State) {
    && 0 < N(st)
    && |st.queue| == |st.pending| == |st.sema| == |st.left| == |st.executed| == N(st)
    && st.qhead < N(st)
    && forall w :: 0 <= w < N(st) ==> PcInRange(st.pc[w], N(st))
  }

  predicate PcInRange(pc: Pc, n: nat) {
    match pc
    case Copy(head) => head < n
    case MasterWait(r, head, i) => r.wid < n && head < n && i < n
    case MasterPost(r, i) => r.wid < n && i <= n
    case Enter(r) => r.wid < n
    case AwaitStart(r) => r.wid < n
    case Execute(r) => r.wid < n
    case Leave(r) => r.wid < n
    case MasterStop(r, i) => r.wid < n && i < n
    case _ => true
  }

  ghost predicate Init(st: State) {
    && Shape(st)
    && st.qhead == 0 && st.qtail == 0 && st.g == 0 && st.log == [] && st.woken == []
    && forall w :: 0 <= w < N(st) ==>
         && st.queue[w] == None && !st.pending[w] && st.sema[w] == 0
         && st.pc[w] == Outside && st.left[w] == 0 && st.executed[w] == []
  }

  /** sem_wait blocks on a semaphore at 0; everything else can always proceed. */
  predicate Waiting(st: State, w: WorkerId)
    requires w < N(st)
  {
    match st.pc[w]
    case AwaitStart(_) => true
    case MasterWait(_, _, i) => i + 1 < N(st)
    case MasterStop(_, i) => i + 1 < N(st)
    case _ => false
  }

  ghost predicate Enabled(st: State, a: Action) {
    && a.w < N(st)
    && match a
       case AppendRequest(w, _) => st.pc[w] == Outside
       case EnterHandler(w) => st.pc[w] == Outside || st.pc[w] == Requested
       case Step(w) => st.pc[w] != Outside && st.pc[w] != Requested
                       && (Waiting(st, w) ==> |st.sema| == N(st) && st.sema[w] > 0)
  }

  function Goto(st: State, w: WorkerId, pc: Pc): State
    requires w < N(st)
  {
    st.(pc := st.pc[w := pc])
  }

  function Post(st: State, w: WorkerId): State
    requires w < |st.sema|
  {
    st.(sema := st.sema[w := st.sema[w] + 1])
  }

  function Take(st: State, w: WorkerId): State
    requires w < |st.sema| && st.sema[w] > 0
  {
    st.(sema := st.sema[w := st.sema[w] - 1])
  }

  /** LpelSpmdRequest */
  function Append(st: State, w: WorkerId, task: nat): State
    requires Shape(st) && w < N(st)
  {
    var slot := st.qtail % N(st);
    var r := Request(w, task);
    st.(pending := st.pending[w := true],
        queue := st.queue[slot := Some(r)],
        qtail := st.qtail + 1,
        log := st.log + [r],
        pc := st.pc[w := Requested])
  }

  /** Copies the head request and takes the master's or the other workers' path, or leaves. */
  function CopyRequest(st: State, w: WorkerId, head: nat): State
    requires Shape(st) && w < N(st) && head < N(st)
  {
    match st.queue[head]
    case None => Goto(st, w, Outside)
    case Some(r) => Goto(st, w, if r.wid == w then MasterWait(r, head, 0) else Enter(r))
  }

  /** Removes the head request, moves qhead and corrects qtail. */
  function CriticalSection(st: State, w: WorkerId, r: Request, head: nat): State
    requires Shape(st) && w < N(st) && head < N(st)
  {
    st.(queue := st.queue[head := None],
        qhead := (head + 1) % N(st),
        qtail := if st.qtail >= N(st) then st.qtail % N(st) else st.qtail,
        g := st.g + 1,
        pc := st.pc[w := MasterPost(r, 0)])
  }

  /** Clears the pending flag and wakes the requesting task. */
  function Finish(st: State, w: WorkerId, r: Request): State
    requires Shape(st) && w < N(st)
  {
    st.(pending := st.pending[w := false],
        woken := st.woken + [r],
        left := st.left[w := st.left[w] + 1],
        pc := st.pc[w := Load])
  }

  function StepWorker(st: State, w: WorkerId): State
    requires Shape(st) && w < N(st) && (Waiting(st, w) ==> st.sema[w] > 0)
  {
    assert PcInRange(st.pc[w], N(st));
    match st.pc[w]
    case Outside => st
    case Requested => st
    case Load => Goto(st, w, Copy(st.qhead))
    case Copy(head) => CopyRequest(st, w, head)
    case MasterWait(r, head, i) =>
      if i + 1 < N(st) then Goto(Take(st, w), w, MasterWait(r, head, i + 1))
      else CriticalSection(st, w, r, head)
    case MasterPost(r, i) =>
      if i == N(st) then Goto(st, w, Execute(r))
      else Goto(if i != w then Post(st, i) else st, w, MasterPost(r, i + 1))
    case Enter(r) => Goto(Post(st, r.wid), w, AwaitStart(r))
    case AwaitStart(r) => Goto(Take(st, w), w, Execute(r))
    case Execute(r) =>
      Goto(st.(executed := st.executed[w := st.executed[w] + [r]]), w,
           if r.wid == w then MasterStop(r, 0) else Leave(r))
    case Leave(r) => Goto(Post(st.(left := st.left[w := st.left[w] + 1]), r.wid), w, Load)
    case MasterStop(r, i) =>
      if i + 1 < N(st) then Goto(Take(st, w), w, MasterStop(r, i + 1))
      else Finish(st, w, r)
  }

  function Apply(st: State, a: Action): State
    requires Shape(st) && Enabled(st, a)
  {
    match a
    case AppendRequest(w, task) => Append(st, w, task)
    case EnterHandler(w) => Goto(st, w, Load)
    case Step(w) => StepWorker(st, w)
  }

  ghost predicate IsRun(states: seq<State>, acts: seq<Action>) {
    && |states| == |acts| + 1
    && Init(states[0])
    && forall i :: 0 <= i < |acts| ==>
         Shape(states[i]) && Enabled(states[i], acts[i]) && states[i + 1] == Apply(states[i], acts[i])
  }

  // ---------------------------------------------------------------------------
  // The invariant

  /** Worker w serves request number g-1, which the masters have already removed, as its master. */
  predicate StopMaster(st: State, w: WorkerId)
    requires w < |st.left|
  {
    0 < st.g <= |st.log| && st.log[st.g - 1].wid == w && st.left[w] == st.g - 1
  }

  /** Worker w is the master of the request at the head of the queue. */
  predicate StartMaster(st: State, w: WorkerId) {
    st.g < |st.log| && st.log[st.g].wid == w
  }

  /** What a worker's program counter says about the request it is in. */
  predicate PcOk(st: State, w: WorkerId)
    requires w < N(st) && w < |st.left|
  {
    var pc := st.pc[w];
    if st.left[w] == st.g then
      match pc
      case Outside => true
      case Requested => true
      case Load => true
      case Copy(head) => head == st.qhead
      case MasterWait(r, head, i) => st.g < |st.log| && r == st.log[st.g] && r.wid == w && head == st.qhead
      case Enter(r) => st.g < |st.log| && r == st.log[st.g] && r.wid != w
      case AwaitStart(r) => st.g < |st.log| && r == st.log[st.g] && r.wid != w
      case _ => false
    else
      && st.left[w] + 1 == st.g <= |st.log|
      && var cur := st.log[st.g - 1];
      match pc
      case MasterPost(r, i) => r == cur && r.wid == w
      case Execute(r) => r == cur
      case MasterStop(r, i) => r == cur && r.wid == w
      case AwaitStart(r) => r == cur && r.wid != w
      case Leave(r) => r == cur && r.wid != w
      case _ => false
  }

  /** First request that is not completely finished. */
  function Oldest(st: State): nat
    requires st.g <= |st.log|
  {
    if 0 < st.g && st.log[st.g - 1].wid < |st.left| && StopMaster(st, st.log[st.g - 1].wid) then st.g - 1 else st.g
  }

  /** Each worker has at most one unfinished request, and its pending flag tells. */
  ghost predicate FlagInv(st: State)
    requires Shape(st)
  {
    && st.g <= |st.log|
    && (forall j :: 0 <= j < |st.log| ==> st.log[j].wid < N(st))
    && (forall i, j :: Oldest(st) <= i < j < |st.log| ==> st.log[i].wid != st.log[j].wid)
    && (forall w :: 0 <= w < N(st) ==> (st.pending[w] <==> HasUnfinished(st, w)))
    && (forall w :: 0 <= w < N(st) && st.pc[w] == Outside ==> !st.pending[w])
  }

  /** The filled slots are exactly a run from qhead on, holding the requests not yet removed. */
  ghost predicate RingInv(st: State)
    requires Shape(st)
  {
    && st.g <= |st.log|
    && (forall s :: 0 <= s < N(st) ==> st.queue[s] == Live(st, Ahead(s, st.qhead, N(st))))
    && (st.qtail == st.qhead + (|st.log| - st.g) || st.qtail + N(st) == st.qhead + (|st.log| - st.g))
    && |st.log| - st.g <= N(st)
  }

  ghost predicate QueueInv(st: State)
    requires Shape(st)
  {
    FlagInv(st) && RingInv(st)
  }

  ghost predicate HasUnfinished(st: State, w: WorkerId)
    requires st.g <= |st.log|
  {
    exists j :: Oldest(st) <= j < |st.log| && st.log[j].wid == w
  }

  function Live(st: State, k: int): Option<Request>
    requires st.g <= |st.log|
  {
    if 0 <= k < |st.log| - st.g then Some(st.log[st.g + k]) else None
  }

  ghost predicate ProgressInv(st: State)
    requires Shape(st)
  {
    && st.g <= |st.log|
    && (forall w :: 0 <= w < N(st) ==> PcOk(st, w))
    && (forall w :: 0 <= w < N(st) ==> st.left[w] <= st.g <= st.left[w] + 1)
    && (0 < st.g && st.log[st.g - 1].wid < N(st) && st.left[st.log[st.g - 1].wid] == st.g ==>
          forall w :: 0 <= w < N(st) ==> st.left[w] == st.g)
    && (forall w :: 0 <= w < N(st) ==> ExecutedOk(st, w))
    && st.woken == st.log[..Oldest(st)]
  }

  /** w has executed exactly the requests it has gone through, and possibly the one it is in. */
  predicate ExecutedOk(st: State, w: WorkerId)
    requires w < N(st) && |st.left| == |st.executed| == N(st)
  {
    var n := st.left[w] + Bit(HasExecuted(st.pc[w]));
    n <= |st.log| && st.executed[w] == st.log[..n]
  }

  function Bit(b: bool): nat { if b then 1 else 0 }

  predicate HasExecuted(pc: Pc) { pc.Leave? || pc.MasterStop? }

  // Tokens of a semaphore: those posted and not yet taken, counted over the current window.

  function Workers(n: nat): (ws: set<WorkerId>)
    ensures forall x :: x in ws <==> 0 <= x < n
    ensures |ws| == n
  {
    if n == 0 then {} else Workers(n - 1) + {n - 1}
  }

  function Others(w: WorkerId, n: nat): (ws: set<WorkerId>)
    ensures w < n ==> |ws| == n - 1
  {
    Workers(n) - {w}
  }

  /** x has posted the start token (of the head request) or stop token (of the one before) that w collects. */
  predicate HasPosted(st: State, x: WorkerId, w: WorkerId)
    requires w < N(st) && x < N(st) && |st.left| == N(st)
  {
    st.left[x] == st.g && (StopMaster(st, w) || (StartMaster(st, w) && st.pc[x].AwaitStart?))
  }

  ghost function Posters(st: State, w: WorkerId): set<WorkerId>
    requires w < N(st) && |st.left| == N(st)
  {
    set x | x in Others(w, N(st)) && HasPosted(st, x, w)
  }

  lemma PostersSame(st: State, st': State, w: WorkerId)
    requires N(st') == N(st) && |st.left| == |st'.left| == N(st) && w < N(st)
    requires forall x :: 0 <= x < N(st) && x != w ==> (HasPosted(st', x, w) <==> HasPosted(st, x, w))
    ensures |Posters(st', w)| == |Posters(st, w)|
  {
    assert Posters(st', w) == Posters(st, w);
  }

  lemma PostersPlus(st: State, st': State, w: WorkerId, y: WorkerId)
    requires N(st') == N(st) && |st.left| == |st'.left| == N(st) && w < N(st)
    requires y < N(st) && y != w && !HasPosted(st, y, w) && HasPosted(st', y, w)
    requires forall x :: 0 <= x < N(st) && x != w && x != y ==> (HasPosted(st', x, w) <==> HasPosted(st, x, w))
    ensures |Posters(st', w)| == |Posters(st, w)| + 1
  {
    assert Posters(st', w) == Posters(st, w) + {y};
  }

  /** At most all other workers have posted; if that many have, all have. */
  lemma PostersBound(st: State, w: WorkerId)
    requires w < N(st) && |st.left| == N(st)
    ensures |Posters(st, w)| <= N(st) - 1
    ensures |Posters(st, w)| == N(st) - 1 ==> forall x :: 0 <= x < N(st) && x != w ==> HasPosted(st, x, w)
  {
    SubsetSize(Posters(st, w), Others(w, N(st)));
    if |Posters(st, w)| == N(st) - 1 {
      forall x | 0 <= x < N(st) && x != w
        ensures HasPosted(st, x, w)
      {
        assert x in Others(w, N(st));
        assert x in Posters(st, w);
      }
    }
  }

  lemma SubsetSize(a: set<WorkerId>, b: set<WorkerId>)
    requires a <= b
    ensures |a| <= |b|
    ensures |a| == |b| ==> a == b
  {
    assert b == a + (b - a);
  }

  /** The master of request g-1 has posted its release to w. */
  predicate Released(st: State, w: WorkerId)
    requires |st.left| == N(st)
  {
    && 0 < st.g <= |st.log|
    && var m := st.log[st.g - 1].wid;
    && m < N(st) && m != w
    && (st.left[m] == st.g || st.pc[m].Execute? || st.pc[m].MasterStop? || (st.pc[m].MasterPost? && st.pc[m].i > w))
  }

  /** w has taken the token that stands for its release in request g-1. */
  predicate TookRelease(st: State, w: WorkerId)
    requires w < N(st) && |st.left| == N(st)
  {
    && 0 < st.g <= |st.log| && st.log[st.g - 1].wid != w
    && (st.left[w] == st.g || st.pc[w].Execute? || st.pc[w].Leave?)
  }

  /** Tokens w has taken as a master in the current barrier. */
  function TakenAsMaster(st: State, w: WorkerId): nat
    requires w < N(st)
  {
    if st.pc[w].MasterWait? || st.pc[w].MasterStop? then st.pc[w].i else 0
  }

  ghost predicate SemaOk(st: State, w: WorkerId)
    requires w < N(st) && |st.left| == N(st) && |st.sema| == N(st)
  {
    st.sema[w] + Bit(TookRelease(st, w)) + TakenAsMaster(st, w) == Bit(Released(st, w)) + |Posters(st, w)|
  }

  ghost predicate Inv(st: State) {
    && Shape(st)
    && QueueInv(st)
    && ProgressInv(st)
    && forall w :: 0 <= w < N(st) ==> SemaOk(st, w)
  }

  lemma InitInv(st: State)
    requires Init(st)
    ensures Inv(st)
  {
  }

  // ---------------------------------------------------------------------------
  // Steps that only move one program counter before the start barrier

  predicate Early(pc: Pc) {
    pc.Outside? || pc.Requested? || pc.Load? || pc.Copy? || pc.Enter? || (pc.MasterWait? && pc.i == 0)
  }

  lemma QuietInv(st: State, w: WorkerId, pc: Pc)
    requires Inv(st) && w < N(st) && st.left[w] == st.g
    requires Early(st.pc[w]) && Early(pc) && PcInRange(pc, N(st))
    requires PcOk(Goto(st, w, pc), w)
    requires pc == Outside ==> !st.pending[w]
    ensures Inv(Goto(st, w, pc))
  {
    var st' := Goto(st, w, pc);
    QuietQueue(st, w, pc);
    QuietProgress(st, w, pc);
    forall v | 0 <= v < N(st) ensures SemaOk(st', v) {
      QuietSema(st, w, pc, v);
    }
  }

  lemma QuietSema(st: State, w: WorkerId, pc: Pc, v: WorkerId)
    requires Shape(st) && w < N(st) && st.left[w] == st.g && Early(st.pc[w]) && Early(pc)
    requires v < N(st) && SemaOk(st, v)
    ensures SemaOk(Goto(st, w, pc), v)
  {
    PostersSame(st, Goto(st, w, pc), v);
  }

  lemma QuietQueue(st: State, w: WorkerId, pc: Pc)
    requires Inv(st) && w < N(st) && PcInRange(pc, N(st)) && (pc == Outside ==> !st.pending[w])
    ensures Shape(Goto(st, w, pc)) && QueueInv(Goto(st, w, pc))
  {
    var st' := Goto(st, w, pc);
    forall v | 0 <= v < N(st) ensures HasUnfinished(st', v) <==> HasUnfinished(st, v) {
      forall j | 0 <= j < |st.log| ensures st'.log[j] == st.log[j] {}
    }
  }

  lemma QuietProgress(st: State, w: WorkerId, pc: Pc)
    requires Inv(st) && w < N(st) && st.left[w] == st.g
    requires Early(st.pc[w]) && Early(pc) && PcInRange(pc, N(st))
    requires PcOk(Goto(st, w, pc), w)
    ensures Shape(Goto(st, w, pc)) && ProgressInv(Goto(st, w, pc))
  {
    var st' := Goto(st, w, pc);
    forall v | 0 <= v < N(st) ensures PcOk(st', v) && ExecutedOk(st', v) {
      assert PcOk(st, v) && ExecutedOk(st, v);
    }
  }

  // ---------------------------------------------------------------------------
  // Steps inside the barriers

  /** A step that does not touch queue, flags and finished requests. */
  lemma QueueFrame(st: State, st': State)
    requires Shape(st) && Shape(st') && QueueInv(st) && N(st') == N(st)
    requires st'.queue == st.queue && st'.qhead == st.qhead && st'.qtail == st.qtail
    requires st'.log == st.log && st'.g == st.g && st'.pending == st.pending && Oldest(st') == Oldest(st)
    requires forall v :: 0 <= v < N(st) && st'.pc[v] == Outside ==> st.pc[v] == Outside
    ensures QueueInv(st')
  {
    forall v | 0 <= v < N(st) ensures HasUnfinished(st', v) <==> HasUnfinished(st, v) {
      forall j | 0 <= j < |st.log| ensures st'.log[j] == st.log[j] {}
    }
  }

  /** A step of w inside a barrier that changes only its program counter and semaphores. */
  lemma BarrierProgress(st: State, st': State, w: WorkerId)
    requires Shape(st) && Shape(st') && QueueInv(st) && ProgressInv(st) && w < N(st)
    requires st' == st.(pc := st'.pc, sema := st'.sema) && N(st') == N(st)
    requires forall v :: 0 <= v < N(st) && v != w ==> st'.pc[v] == st.pc[v]
    requires PcOk(st', w) && HasExecuted(st'.pc[w]) == HasExecuted(st.pc[w])
    requires st'.pc[w] != Outside
    ensures QueueInv(st') && ProgressInv(st')
  {
    QueueFrame(st, st');
    forall v | 0 <= v < N(st) ensures PcOk(st', v) && ExecutedOk(st', v) {
      assert PcOk(st, v) && ExecutedOk(st, v);
    }
  }

  lemma ProgressAt(st: State, w: WorkerId)
    requires Shape(st) && ProgressInv(st) && w < N(st)
    ensures PcOk(st, w) && ExecutedOk(st, w) && PcInRange(st.pc[w], N(st))
    ensures st.left[w] <= st.g <= st.left[w] + 1
  {
  }

  lemma At(st: State, w: WorkerId)
    requires Inv(st) && w < N(st)
    ensures PcOk(st, w) && SemaOk(st, w) && ExecutedOk(st, w) && PcInRange(st.pc[w], N(st))
    ensures st.left[w] <= st.g <= st.left[w] + 1
  {
  }

  /** The same worker is not master of the current and of the next request. */
  lemma NotBothMasters(st: State, w: WorkerId)
    requires Inv(st) && w < N(st)
    ensures !(StopMaster(st, w) && StartMaster(st, w))
  {
  }

  lemma TakeInv(st: State, w: WorkerId)
    requires Inv(st) && w < N(st) && Waiting(st, w) && st.sema[w] > 0 && !st.pc[w].AwaitStart?
    ensures Inv(StepWorker(st, w))
  {
    At(st, w);
    var st' := StepWorker(st, w);
    BarrierProgress(st, st', w);
    forall v | 0 <= v < N(st) ensures SemaOk(st', v) {
      TakeSema(st, w, v);
    }
  }

  lemma TakeSema(st: State, w: WorkerId, v: WorkerId)
    requires Shape(st) && w < N(st) && Waiting(st, w) && st.sema[w] > 0 && !st.pc[w].AwaitStart?
    requires v < N(st) && SemaOk(st, v)
    ensures SemaOk(StepWorker(st, w), v)
  {
    PostersSame(st, StepWorker(st, w), v);
  }

  lemma MasterPostInv(st: State, w: WorkerId)
    requires Inv(st) && w < N(st) && st.pc[w].MasterPost?
    ensures Inv(StepWorker(st, w))
  {
    At(st, w);
    var st' := StepWorker(st, w);
    BarrierProgress(st, st', w);
    forall v | 0 <= v < N(st) ensures SemaOk(st', v) {
      At(st, v);
      MasterPostSema(st, w, v);
    }
  }

  lemma MasterPostSema(st: State, w: WorkerId, v: WorkerId)
    requires Shape(st) && w < N(st) && st.pc[w].MasterPost? && PcOk(st, w)
    requires v < N(st) && SemaOk(st, v)
    ensures SemaOk(StepWorker(st, w), v)
  {
    PostersSame(st, StepWorker(st, w), v);
    MasterPostReleases(st, w, v);
  }

  /** The master releases worker i, and nobody else. */
  lemma MasterPostReleases(st: State, w: WorkerId, v: WorkerId)
    requires Shape(st) && w < N(st) && st.pc[w].MasterPost? && PcOk(st, w) && v < N(st)
    ensures var st', i := StepWorker(st, w), st.pc[w].i;
      && |st'.left| == N(st') == N(st)
      && Bit(Released(st', v)) == Bit(Released(st, v)) + Bit(v == i && v != w)
      && TookRelease(st', v) == TookRelease(st, v)
      && st'.sema[v] == st.sema[v] + Bit(v == i && v != w)
  {
  }

  lemma EnterInv(st: State, w: WorkerId)
    requires Inv(st) && w < N(st) && st.pc[w].Enter?
    ensures Inv(StepWorker(st, w))
  {
    At(st, w);
    var st' := StepWorker(st, w);
    BarrierProgress(st, st', w);
    NotBothMasters(st, st.pc[w].r.wid);
    forall v | 0 <= v < N(st) ensures SemaOk(st', v) {
      At(st, v);
      EnterSema(st, w, v);
    }
  }

  lemma EnterSema(st: State, w: WorkerId, v: WorkerId)
    requires Shape(st) && w < N(st) && st.pc[w].Enter? && PcOk(st, w)
    requires !(StopMaster(st, st.pc[w].r.wid) && StartMaster(st, st.pc[w].r.wid))
    requires v < N(st) && SemaOk(st, v)
    ensures SemaOk(StepWorker(st, w), v)
  {
    var st' := StepWorker(st, w);
    if v == st.pc[w].r.wid {
      PostersPlus(st, st', v, w);
    } else {
      PostersSame(st, st', v);
    }
  }

  /** A start token reaches a waiting worker only after its master's critical section. */
  lemma StartTokenIsRelease(st: State, w: WorkerId)
    requires Inv(st) && w < N(st) && st.pc[w].AwaitStart? && st.left[w] == st.g
    ensures st.sema[w] == 0
  {
    At(st, w);
    assert Posters(st, w) == {};
  }

  lemma AwaitStartInv(st: State, w: WorkerId)
    requires Inv(st) && w < N(st) && st.pc[w].AwaitStart? && st.sema[w] > 0
    ensures Inv(StepWorker(st, w))
  {
    At(st, w);
    if st.left[w] == st.g {
      StartTokenIsRelease(st, w);
    } else {
      var st' := StepWorker(st, w);
      BarrierProgress(st, st', w);
      forall v | 0 <= v < N(st) ensures SemaOk(st', v) {
        At(st, v);
        AwaitStartSema(st, w, v);
      }
    }
  }

  lemma AwaitStartSema(st: State, w: WorkerId, v: WorkerId)
    requires Shape(st) && w < N(st) && st.pc[w].AwaitStart? && st.sema[w] > 0 && PcOk(st, w) && st.left[w] != st.g
    requires v < N(st) && SemaOk(st, v)
    ensures SemaOk(StepWorker(st, w), v)
  {
    PostersSame(st, StepWorker(st, w), v);
  }

  lemma ExecuteInv(st: State, w: WorkerId)
    requires Inv(st) && w < N(st) && st.pc[w].Execute?
    ensures Inv(StepWorker(st, w))
  {
    At(st, w);
    ExecuteProgress(st, w);
    forall v | 0 <= v < N(st) ensures SemaOk(StepWorker(st, w), v) {
      At(st, v);
      ExecuteSema(st, w, v);
    }
  }

  lemma ExecuteProgress(st: State, w: WorkerId)
    requires Inv(st) && w < N(st) && st.pc[w].Execute?
    ensures var st' := StepWorker(st, w); Shape(st') && QueueInv(st') && ProgressInv(st')
  {
    ProgressAt(st, w);
    var st' := StepWorker(st, w);
    QueueFrame(st, st');
    forall v | 0 <= v < N(st) ensures PcOk(st', v) {
      ProgressAt(st, v);
    }
    forall v | 0 <= v < N(st) ensures ExecutedOk(st', v) {
      ProgressAt(st, v);
      assert st.log[..st.g] == st.log[..st.g - 1] + [st.log[st.g - 1]];
    }
  }

  lemma ExecuteSema(st: State, w: WorkerId, v: WorkerId)
    requires Shape(st) && w < N(st) && st.pc[w].Execute? && PcOk(st, w)
    requires v < N(st) && SemaOk(st, v)
    ensures SemaOk(StepWorker(st, w), v)
  {
    PostersSame(st, StepWorker(st, w), v);
  }

  lemma LeaveInv(st: State, w: WorkerId)
    requires Inv(st) && w < N(st) && st.pc[w].Leave?
    ensures Inv(StepWorker(st, w))
  {
    At(st, w);
    At(st, st.pc[w].r.wid);
    var st' := StepWorker(st, w);
    LeaveProgress(st, w);
    forall v | 0 <= v < N(st) ensures SemaOk(st', v) {
      At(st, v);
      LeaveSema(st, w, v);
    }
  }

  lemma LeaveProgress(st: State, w: WorkerId)
    requires Inv(st) && w < N(st) && st.pc[w].Leave?
    ensures var st' := StepWorker(st, w); Shape(st') && QueueInv(st') && ProgressInv(st')
  {
    ProgressAt(st, w);
    var st' := StepWorker(st, w);
    QueueFrame(st, st');
    forall v | 0 <= v < N(st) ensures PcOk(st', v) {
      ProgressAt(st, v);
    }
    forall v | 0 <= v < N(st) ensures ExecutedOk(st', v) {
      ProgressAt(st, v);
    }
  }

  lemma LeaveSema(st: State, w: WorkerId, v: WorkerId)
    requires Shape(st) && w < N(st) && st.pc[w].Leave? && PcOk(st, w) && StopMaster(st, st.pc[w].r.wid)
    requires v < N(st) && SemaOk(st, v)
    ensures SemaOk(StepWorker(st, w), v)
  {
    var st' := StepWorker(st, w);
    if v == st.pc[w].r.wid {
      PostersPlus(st, st', v, w);
    } else {
      PostersSame(st, st', v);
    }
  }

  // ---------------------------------------------------------------------------
  // The critical section

  /**
    When the master has collected its start tokens, every other worker waits for the release of
    this very request, every semaphore is at 0, and everybody has gone through all requests before.
   */
  lemma AllEntered(st: State, w: WorkerId)
    requires Inv(st) && w < N(st) && st.pc[w].MasterWait? && st.pc[w].i + 1 == N(st)
    ensures forall x :: 0 <= x < N(st) ==> st.left[x] == st.g && st.sema[x] == 0
    ensures forall x :: 0 <= x < N(st) && x != w ==> st.pc[x] == AwaitStart(st.pc[w].r)
  {
    At(st, w);
    NotBothMasters(st, w);
    PostersBound(st, w);
    forall x | 0 <= x < N(st) && x != w
      ensures st.left[x] == st.g && st.sema[x] == 0 && st.pc[x] == AwaitStart(st.pc[w].r)
    {
      assert HasPosted(st, x, w);
      At(st, x);
      StartTokenIsRelease(st, x);
    }
  }

  lemma CriticalInv(st: State, w: WorkerId)
    requires Inv(st) && w < N(st) && st.pc[w].MasterWait? && st.pc[w].i + 1 == N(st)
    ensures Inv(StepWorker(st, w))
  {
    At(st, w);
    AllEntered(st, w);
    var st' := StepWorker(st, w);
    CriticalQueue(st, w);
    CriticalProgress(st, w);
    forall v | 0 <= v < N(st) ensures SemaOk(st', v) {
      assert Posters(st', v) == {} by {
        assert forall x :: 0 <= x < N(st) ==> !HasPosted(st', x, v);
      }
    }
  }

  lemma CriticalProgress(st: State, w: WorkerId)
    requires Inv(st) && w < N(st) && st.pc[w].MasterWait? && st.pc[w].i + 1 == N(st)
    ensures var st' := StepWorker(st, w); Shape(st') && ProgressInv(st')
  {
    At(st, w);
    AllEntered(st, w);
    var st' := StepWorker(st, w);
    WrapIsModular(st.pc[w].head + 1, N(st));
    assert Oldest(st) == st.g == Oldest(st');
    forall v | 0 <= v < N(st) ensures PcOk(st', v) && ExecutedOk(st', v) {
      At(st, v);
    }
  }

  lemma CriticalQueue(st: State, w: WorkerId)
    requires Inv(st) && w < N(st) && st.pc[w].MasterWait? && st.pc[w].i + 1 == N(st)
    ensures var st' := StepWorker(st, w); Shape(st') && QueueInv(st')
  {
    ProgressAt(st, w);
    AllEntered(st, w);
    var st' := StepWorker(st, w);
    WrapIsModular(st.qhead + 1, N(st));
    assert Oldest(st) == st.g == Oldest(st');
    forall v | 0 <= v < N(st) ensures HasUnfinished(st', v) <==> HasUnfinished(st, v) {
    }
    CriticalRing(st, w);
  }

  lemma CriticalRing(st: State, w: WorkerId)
    requires Shape(st) && RingInv(st) && w < N(st) && st.pc[w].MasterWait? && st.pc[w].i + 1 == N(st)
    requires st.g < |st.log| && st.pc[w].head == st.qhead
    ensures var st' := StepWorker(st, w); Shape(st') && RingInv(st')
  {
    var st' := StepWorker(st, w);
    WrapIsModular(st.qhead + 1, N(st));
    if st.qtail >= N(st) {
      WrapIsModular(st.qtail, N(st));
    }
    forall s | 0 <= s < N(st) ensures st'.queue[s] == Live(st', Ahead(s, st'.qhead, N(st))) {
      assert st.queue[s] == Live(st, Ahead(s, st.qhead, N(st)));
    }
  }

  // ---------------------------------------------------------------------------
  // The end of a request

  /** When the master has collected its stop tokens, every other worker has left the request. */
  lemma AllLeft(st: State, w: WorkerId)
    requires Inv(st) && w < N(st) && st.pc[w].MasterStop? && st.pc[w].i + 1 == N(st)
    ensures st.g > 0 && st.left[w] == st.g - 1 && st.sema[w] == 0
    ensures forall x :: 0 <= x < N(st) && x != w ==> st.left[x] == st.g
  {
    At(st, w);
    PostersBound(st, w);
    forall x | 0 <= x < N(st) && x != w
      ensures st.left[x] == st.g
    {
      assert HasPosted(st, x, w);
    }
  }

  lemma FinishInv(st: State, w: WorkerId)
    requires Inv(st) && w < N(st) && st.pc[w].MasterStop? && st.pc[w].i + 1 == N(st)
    ensures Inv(StepWorker(st, w))
  {
    At(st, w);
    AllLeft(st, w);
    NotBothMasters(st, w);
    FinishQueue(st, w);
    FinishProgress(st, w);
    forall v | 0 <= v < N(st) ensures SemaOk(StepWorker(st, w), v) {
      At(st, v);
      FinishSema(st, w, v);
    }
  }

  lemma FinishSema(st: State, w: WorkerId, v: WorkerId)
    requires Shape(st) && w < N(st) && st.pc[w].MasterStop? && st.pc[w].i + 1 == N(st) && PcOk(st, w)
    requires StopMaster(st, w) && !StartMaster(st, w) && st.sema[w] == 0
    requires v < N(st) && SemaOk(st, v)
    ensures SemaOk(StepWorker(st, w), v)
  {
    var st' := StepWorker(st, w);
    if v == w {
      assert Posters(st', w) == {} by {
        assert forall x :: 0 <= x < N(st) ==> !HasPosted(st', x, w);
      }
    } else {
      PostersSame(st, st', v);
    }
  }

  lemma FinishProgress(st: State, w: WorkerId)
    requires Inv(st) && w < N(st) && st.pc[w].MasterStop? && st.pc[w].i + 1 == N(st)
    ensures var st' := StepWorker(st, w); Shape(st') && ProgressInv(st')
  {
    At(st, w);
    AllLeft(st, w);
    var st' := StepWorker(st, w);
    assert Oldest(st) == st.g - 1 && Oldest(st') == st.g;
    assert st.log[..st.g] == st.log[..st.g - 1] + [st.log[st.g - 1]];
    forall v | 0 <= v < N(st) ensures PcOk(st', v) && ExecutedOk(st', v) {
      At(st, v);
    }
  }

  /** The finished request was the only unfinished one of its worker. */
  lemma FinishUnfinished(st: State, w: WorkerId, v: WorkerId)
    requires Inv(st) && w < N(st) && st.pc[w].MasterStop? && st.pc[w].i + 1 == N(st) && v < N(st)
    requires Oldest(st) == st.g - 1 && Oldest(StepWorker(st, w)) == st.g && st.log[st.g - 1].wid == w
    ensures HasUnfinished(StepWorker(st, w), v) <==> v != w && HasUnfinished(st, v)
  {
    var st' := StepWorker(st, w);
    if v != w && HasUnfinished(st, v) {
      var j :| Oldest(st) <= j < |st.log| && st.log[j].wid == v;
      assert st.g <= j && st'.log[j].wid == v;
    }
    if HasUnfinished(st', v) {
      var j :| Oldest(st') <= j < |st'.log| && st'.log[j].wid == v;
      assert st.log[j].wid == v != st.log[st.g - 1].wid;
    }
  }

  lemma FinishQueue(st: State, w: WorkerId)
    requires Inv(st) && w < N(st) && st.pc[w].MasterStop? && st.pc[w].i + 1 == N(st)
    ensures var st' := StepWorker(st, w); Shape(st') && QueueInv(st')
  {
    At(st, w);
    AllLeft(st, w);
    var st' := StepWorker(st, w);
    assert Oldest(st) == st.g - 1 && Oldest(st') == st.g;
    forall v | 0 <= v < N(st) ensures HasUnfinished(st', v) <==> v != w && HasUnfinished(st, v) {
      FinishUnfinished(st, w, v);
    }
  }

  // ---------------------------------------------------------------------------
  // Appending a request

  /** The workers of distinct requests are as many as the requests. */
  lemma {:induction false} DistinctWorkers(rs: seq<Request>, ws: set<WorkerId>)
    requires forall i, j :: 0 <= i < j < |rs| ==> rs[i].wid != rs[j].wid
    requires forall i :: 0 <= i < |rs| ==> rs[i].wid in ws
    ensures |rs| <= |ws|
  {
    if rs != [] {
      var last := rs[|rs| - 1].wid;
      DistinctWorkers(rs[..|rs| - 1], ws - {last});
    }
  }

  /** A worker outside the handler finds a free slot at the tail. */
  lemma TailSlotIsFree(st: State, w: WorkerId)
    requires Inv(st) && w < N(st) && st.pc[w] == Outside
    ensures !st.pending[w]
    ensures |st.log| - st.g < N(st)
    ensures st.qtail % N(st) == Wrap(st.qtail, N(st)) == Wrap(st.qhead + (|st.log| - st.g), N(st))
    ensures st.queue[st.qtail % N(st)] == None
    ensures st.qtail + 1 <= 2 * N(st) - 1
  {
    var live := st.log[st.g..];
    assert !HasUnfinished(st, w);
    forall i | 0 <= i < |live|
      ensures live[i].wid in Others(w, N(st))
    {
      assert live[i] == st.log[st.g + i];
    }
    forall i, j | 0 <= i < j < |live|
      ensures live[i].wid != live[j].wid
    {
      assert st.log[st.g + i].wid != st.log[st.g + j].wid;
    }
    DistinctWorkers(live, Others(w, N(st)));
    WrapIsModular(st.qtail, N(st));
  }

  lemma AppendInv(st: State, w: WorkerId, task: nat)
    requires Inv(st) && w < N(st) && st.pc[w] == Outside
    ensures Inv(Append(st, w, task))
  {
    var st' := Append(st, w, task);
    AppendQueue(st, w, task);
    AppendProgress(st, w, task);
    ProgressAt(st, w);
    forall v | 0 <= v < N(st) ensures SemaOk(st', v) {
      At(st, v);
      AppendPosted(st, w, task, v);
      AppendSema(st, w, task, v);
    }
  }

  /** Nobody has entered a request before it was appended. */
  lemma AppendPosted(st: State, w: WorkerId, task: nat, v: WorkerId)
    requires Shape(st) && ProgressInv(st) && w < N(st) && st.pc[w] == Outside && v < N(st)
    ensures forall x :: 0 <= x < N(st) && x != v ==> (HasPosted(Append(st, w, task), x, v) <==> HasPosted(st, x, v))
  {
    forall x | 0 <= x < N(st) && x != v
      ensures HasPosted(Append(st, w, task), x, v) <==> HasPosted(st, x, v)
    {
      ProgressAt(st, x);
    }
  }

  lemma AppendSema(st: State, w: WorkerId, task: nat, v: WorkerId)
    requires Shape(st) && w < N(st) && st.pc[w] == Outside && PcOk(st, w) && st.g <= |st.log|
    requires v < N(st) && SemaOk(st, v)
    requires forall x :: 0 <= x < N(st) && x != v ==> (HasPosted(Append(st, w, task), x, v) <==> HasPosted(st, x, v))
    ensures SemaOk(Append(st, w, task), v)
  {
    PostersSame(st, Append(st, w, task), v);
  }

  lemma AppendPc(st: State, w: WorkerId, task: nat, v: WorkerId)
    requires Shape(st) && w < N(st) && st.pc[w] == Outside && v < N(st) && PcOk(st, v) && PcOk(st, w) && st.g <= |st.log|
    ensures PcOk(Append(st, w, task), v)
  {
  }

  lemma AppendExecuted(st: State, w: WorkerId, task: nat, v: WorkerId)
    requires Shape(st) && w < N(st) && st.pc[w] == Outside && v < N(st) && ExecutedOk(st, v)
    ensures ExecutedOk(Append(st, w, task), v)
  {
    assert (st.log + [Request(w, task)])[..|st.log|] == st.log;
  }

  /** What is finished stays so. */
  lemma AppendOldest(st: State, w: WorkerId, task: nat)
    requires Shape(st) && w < N(st) && st.g <= |st.log|
    ensures Oldest(Append(st, w, task)) == Oldest(st)
  {
  }

  lemma AppendProgress(st: State, w: WorkerId, task: nat)
    requires Inv(st) && w < N(st) && st.pc[w] == Outside
    ensures var st' := Append(st, w, task); Shape(st') && ProgressInv(st')
  {
    ProgressAt(st, w);
    var st' := Append(st, w, task);
    AppendOldest(st, w, task);
    assert st'.log[..Oldest(st)] == st.log[..Oldest(st)];
    forall v | 0 <= v < N(st) ensures PcOk(st', v) && ExecutedOk(st', v) {
      ProgressAt(st, v);
      AppendPc(st, w, task, v);
      AppendExecuted(st, w, task, v);
    }
  }

  lemma AppendQueue(st: State, w: WorkerId, task: nat)
    requires Inv(st) && w < N(st) && st.pc[w] == Outside
    ensures var st' := Append(st, w, task); Shape(st') && QueueInv(st')
  {
    TailSlotIsFree(st, w);
    AppendFlags(st, w, task);
    AppendRing(st, w, task);
  }

  lemma AppendFlags(st: State, w: WorkerId, task: nat)
    requires Shape(st) && FlagInv(st) && w < N(st) && st.pc[w] == Outside
    ensures var st' := Append(st, w, task); Shape(st') && FlagInv(st')
  {
    var st' := Append(st, w, task);
    assert Oldest(st') == Oldest(st);
    assert !HasUnfinished(st, w);
    forall v | 0 <= v < N(st) ensures HasUnfinished(st', v) <==> v == w || HasUnfinished(st, v) {
      assert st'.log[|st.log|].wid == w;
      if HasUnfinished(st, v) {
        var j :| Oldest(st) <= j < |st.log| && st.log[j].wid == v;
        assert st'.log[j].wid == v;
      }
      if v != w && HasUnfinished(st', v) {
        var j :| Oldest(st') <= j < |st'.log| && st'.log[j].wid == v;
        assert st.log[j].wid == v;
      }
    }
    forall i, j | Oldest(st') <= i < j < |st'.log|
      ensures st'.log[i].wid != st'.log[j].wid
    {
      assert st'.log[i] == st.log[i];
    }
  }

  lemma AppendRing(st: State, w: WorkerId, task: nat)
    requires Shape(st) && RingInv(st) && w < N(st) && |st.log| - st.g < N(st)
    requires st.qtail % N(st) == Wrap(st.qhead + (|st.log| - st.g), N(st))
    ensures var st' := Append(st, w, task); Shape(st') && RingInv(st')
  {
    var st' := Append(st, w, task);
    forall s | 0 <= s < N(st) ensures st'.queue[s] == Live(st', Ahead(s, st'.qhead, N(st))) {
      assert st.queue[s] == Live(st, Ahead(s, st.qhead, N(st)));
    }
  }

  // ---------------------------------------------------------------------------
  // Every run

  lemma CopyInv(st: State, w: WorkerId)
    requires Inv(st) && w < N(st) && st.pc[w].Copy?
    ensures Inv(StepWorker(st, w))
  {
    At(st, w);
    assert st.queue[st.qhead] == Live(st, 0);
    QuietInv(st, w, StepWorker(st, w).pc[w]);
  }

  lemma StepInv(st: State, w: WorkerId)
    requires Inv(st) && Enabled(st, Step(w))
    ensures Inv(StepWorker(st, w))
  {
    At(st, w);
    match st.pc[w]
    case Load => QuietInv(st, w, Copy(st.qhead));
    case Copy(_) => CopyInv(st, w);
    case MasterWait(_, _, i) => if i + 1 < N(st) { TakeInv(st, w); } else { CriticalInv(st, w); }
    case MasterPost(_, _) => MasterPostInv(st, w);
    case Enter(_) => EnterInv(st, w);
    case AwaitStart(_) => AwaitStartInv(st, w);
    case Execute(_) => ExecuteInv(st, w);
    case Leave(_) => LeaveInv(st, w);
    case MasterStop(_, i) => if i + 1 < N(st) { TakeInv(st, w); } else { FinishInv(st, w); }
  }

  lemma ApplyInv(st: State, a: Action)
    requires Inv(st) && Enabled(st, a)
    ensures Inv(Apply(st, a))
  {
    match a
    case AppendRequest(w, task) => AppendInv(st, w, task);
    case EnterHandler(w) => At(st, w); QuietInv(st, w, Load);
    case Step(w) => StepInv(st, w);
  }

  lemma {:induction false} RunInv(states: seq<State>, acts: seq<Action>, i: nat)
    requires IsRun(states, acts) && i < |states|
    ensures Inv(states[i])
  {
    if i == 0 {
      InitInv(states[0]);
    } else {
      RunInv(states, acts, i - 1);
      ApplyInv(states[i - 1], acts[i - 1]);
    }
  }

  ghost predicate Reachable(st: State) {
    exists states, acts :: IsRun(states, acts) && st in states
  }

  lemma ReachableInv(st: State)
    requires Reachable(st)
    ensures Inv(st)
  {
    var states, acts :| IsRun(states, acts) && st in states;
    var i :| 0 <= i < |states| && states[i] == st;
    RunInv(states, acts, i);
  }
}
