/**
  The stream protocol of decen_stream.c: any number of tasks joined by any number of
  single-producer/single-consumer streams, every task free to write, read and poll in any
  order. One action is one atomic operation, one section under prod_lock, or one
  block/unblock of a task.
 */
module StreamNet {
  import opened Ring

  type TaskId = nat
  type StreamId = nat

  /** STREAM_BUFFER_SIZE */
  const DEFAULT_SIZE: nat := 16

  /**
    lpel_stream_t. `prod` and `cons` are the tasks behind prod_sd and cons_sd.
    `sent` and `rcvd` record every item put into and popped from the ring.
   */
  datatype Stream = Stream(
    ring: Buffer, nSem: int, eSem: int, isPoll: bool,
    prod: TaskId, cons: TaskId,
    sent: seq<Pointer>, rcvd: seq<Pointer>)

  /** Who got a 1 out of an exchange on a poll token. */
  datatype Party = Poller | Producer(s: StreamId)

  /** What a task does next. */
  datatype Pc =
    | Running
    // LpelStreamWrite
    | WBlocked(s: StreamId, item: Pointer)
    | WPut(s: StreamId, item: Pointer)
    | WRaise(s: StreamId, pollWakeup: bool)
    | WSetSd(s: StreamId)
    | WUnblock(s: StreamId)
    // LpelStreamRead
    | RBlocked(s: StreamId)
    | RTop(s: StreamId)
    | RPop(s: StreamId, item: Pointer)
    | RRaise(s: StreamId, item: Pointer)
    | RUnblock(s: StreamId, item: Pointer)
    // LpelStreamPoll over the set listed in iteration order
    | PFast(order: seq<StreamId>, i: nat)
    | PPlace(order: seq<StreamId>)
    | PRegister(order: seq<StreamId>, i: nat, cnt: int)
    | PBlocked(order: seq<StreamId>, cnt: int)
    | PCheck(order: seq<StreamId>, cnt: int)
    | PUnregister(order: seq<StreamId>, i: nat, cnt: int)
    | PReturn(order: seq<StreamId>, fast: bool, sd: StreamId)

  /**
    lpel_task_t as far as streams use it. `wakes` counts unblocks of the task that it has not
    yet consumed. `takers` and `resumes` record, since the poll token was last placed, who took
    it and how many wakeups the task consumed.
   */
  datatype Task = Task(
    pc: Pc, token: bool, wakeupSd: StreamId, wakes: nat,
    takers: seq<Party>, resumes: nat)

  datatype Net = Net(tasks: seq<Task>, streams: seq<Stream>)

  datatype Action =
    | BeginWrite(t: TaskId, s: StreamId, item: Pointer)
    | BeginRead(t: TaskId, s: StreamId)
    | BeginPoll(t: TaskId, order: seq<StreamId>)
    | Continue(t: TaskId)

  // ---------------------------------------------------------------------------
  // Atomic operations on one stream

  /** LpelStreamCreate */
  function Create(size: nat, prod: TaskId, cons: TaskId): Stream {
    var size := if size == 0 then DEFAULT_SIZE else size;
    Stream(Empty(size), 0, size, false, prod, cons, [], [])
  }

  function PutItem(x: Stream, item: Pointer): Stream
    requires x.ring.WellFormed()
  {
    x.(ring := Put(x.ring, item), sent := x.sent + [item], isPoll := false)
  }

  function PopItem(x: Stream): Stream
    requires x.ring.WellFormed()
  {
    x.(ring := Pop(x.ring), rcvd := x.rcvd + [Top(x.ring)])
  }

  // ---------------------------------------------------------------------------
  // The machine

  ghost predicate Distinct(order: seq<StreamId>) {
    forall i, j :: 0 <= i < j < |order| ==> order[i] != order[j]
  }

  /** A non-empty descriptor set of streams that task t reads. */
  ghost predicate IsPollSet(net: Net, t: TaskId, order: seq<StreamId>) {
    && order != []
    && Distinct(order)
    && forall i :: 0 <= i < |order| ==> order[i] < |net.streams| && net.streams[order[i]].cons == t
  }

  predicate IsWriting(pc: Pc) {
    pc.WBlocked? || pc.WPut? || pc.WRaise? || pc.WSetSd? || pc.WUnblock?
  }

  predicate IsReading(pc: Pc) {
    pc.RBlocked? || pc.RTop? || pc.RPop? || pc.RRaise? || pc.RUnblock?
  }

  predicate IsPolling(pc: Pc) {
    !pc.Running? && !IsWriting(pc) && !IsReading(pc)
  }

  /** Every index a program counter mentions is in range and names a stream of that task. */
  ghost predicate PcOk(net: Net, t: TaskId)
    requires t < |net.tasks|
  {
    var pc := net.tasks[t].pc;
    && (IsWriting(pc) ==> pc.s < |net.streams| && net.streams[pc.s].prod == t)
    && (IsReading(pc) ==> pc.s < |net.streams| && net.streams[pc.s].cons == t)
    && (pc.WBlocked? || pc.WPut? ==> pc.item != NULL)
    && (IsPolling(pc) ==> IsPollSet(net, t, pc.order))
    && (pc.PFast? || pc.PRegister? || pc.PUnregister? ==> pc.i < |pc.order|)
  }

  ghost predicate WellFormed(net: Net) {
    && (forall s :: 0 <= s < |net.streams| ==>
          && net.streams[s].prod < |net.tasks|
          && net.streams[s].cons < |net.tasks|
          && net.streams[s].ring.WellFormed())
    && (forall t :: 0 <= t < |net.tasks| ==> PcOk(net, t))
  }

  predicate IsBlocked(pc: Pc) {
    pc.WBlocked? || pc.RBlocked? || pc.PBlocked?
  }

  ghost predicate Enabled(net: Net, a: Action) {
    && a.t < |net.tasks|
    && var pc := net.tasks[a.t].pc;
    match a
    case BeginWrite(t, s, item) => pc.Running? && s < |net.streams| && net.streams[s].prod == t && item != NULL
    case BeginRead(t, s) => pc.Running? && s < |net.streams| && net.streams[s].cons == t
    case BeginPoll(t, order) => pc.Running? && IsPollSet(net, t, order)
    case Continue(t) => !pc.Running? && (IsBlocked(pc) ==> net.tasks[t].wakes > 0)
  }

  function Goto(net: Net, t: TaskId, pc: Pc): Net
    requires t < |net.tasks|
  {
    net.(tasks := net.tasks[t := net.tasks[t].(pc := pc)])
  }

  function SetStream(net: Net, s: StreamId, x: Stream): Net
    requires s < |net.streams|
  {
    net.(streams := net.streams[s := x])
  }

  /** LpelTaskUnblock(target) */
  function Unblock(net: Net, t: TaskId): Net
    requires t < |net.tasks|
  {
    net.(tasks := net.tasks[t := net.tasks[t].(wakes := net.tasks[t].wakes + 1)])
  }

  /** quasi P(e_sem): decrement, block if it was 0. */
  function WriteP(net: Net, t: TaskId, s: StreamId, item: Pointer): Net
    requires t < |net.tasks| && s < |net.streams|
  {
    var x := net.streams[s];
    Goto(SetStream(net, s, x.(eSem := x.eSem - 1)), t,
         if x.eSem == 0 then WBlocked(s, item) else WPut(s, item))
  }

  /** The section under prod_lock: put the item, take the token of a polling consumer. */
  function WriteLocked(net: Net, t: TaskId, s: StreamId, item: Pointer): Net
    requires t < |net.tasks| && s < |net.streams|
    requires net.streams[s].ring.WellFormed() && net.streams[s].cons < |net.tasks|
  {
    var x := net.streams[s];
    var c := net.tasks[x.cons];
    var net1 := SetStream(net, s, PutItem(x, item));
    if x.isPoll then
      var c' := c.(token := false, takers := if c.token then c.takers + [Producer(s)] else c.takers);
      Goto(net1.(tasks := net1.tasks[x.cons := c']), t, WRaise(s, c.token))
    else
      Goto(net1, t, WRaise(s, false))
  }

  /** quasi V(n_sem), and the choice of whom to wake. */
  function WriteV(net: Net, t: TaskId, s: StreamId, pollWakeup: bool): Net
    requires t < |net.tasks| && s < |net.streams|
  {
    var x := net.streams[s];
    Goto(SetStream(net, s, x.(nSem := x.nSem + 1)), t,
         if x.nSem < 0 then WUnblock(s) else if pollWakeup then WSetSd(s) else Running)
  }

  function SetWakeupSd(net: Net, t: TaskId, sd: StreamId): Net
    requires t < |net.tasks|
  {
    net.(tasks := net.tasks[t := net.tasks[t].(wakeupSd := sd)])
  }

  /** quasi P(n_sem) */
  function ReadP(net: Net, t: TaskId, s: StreamId): Net
    requires t < |net.tasks| && s < |net.streams|
  {
    var x := net.streams[s];
    Goto(SetStream(net, s, x.(nSem := x.nSem - 1)), t, if x.nSem == 0 then RBlocked(s) else RTop(s))
  }

  /** quasi V(e_sem) */
  function ReadV(net: Net, t: TaskId, s: StreamId, item: Pointer): Net
    requires t < |net.tasks| && s < |net.streams|
  {
    var x := net.streams[s];
    Goto(SetStream(net, s, x.(eSem := x.eSem + 1)), t,
         if x.eSem < 0 then RUnblock(s, item) else Running)
  }

  /** A blocked task consumes one wakeup and goes on at pc. */
  function Resume(net: Net, t: TaskId, pc: Pc): Net
    requires t < |net.tasks| && net.tasks[t].wakes > 0
  {
    var x := net.tasks[t];
    net.(tasks := net.tasks[t := x.(pc := pc, wakes := x.wakes - 1, resumes := x.resumes + 1)])
  }

  /** One iteration of the fast path of LpelStreamPoll. */
  function PollFast(net: Net, t: TaskId, order: seq<StreamId>, i: nat): Net
    requires t < |net.tasks| && i < |order| && order[i] < |net.streams|
    requires net.streams[order[i]].ring.WellFormed()
  {
    if Top(net.streams[order[i]].ring) != NULL then
      Goto(net, t, PReturn(order, true, order[i]))
    else
      Goto(net, t, if i + 1 < |order| then PFast(order, i + 1) else PPlace(order))
  }

  function PollPlace(net: Net, t: TaskId, order: seq<StreamId>): Net
    requires t < |net.tasks|
  {
    var x := net.tasks[t];
    net.(tasks := net.tasks[t := x.(pc := PRegister(order, 0, 0), token := true, takers := [], resumes := 0)])
  }

  /** One locked iteration of the registering loop. */
  function PollRegister(net: Net, t: TaskId, order: seq<StreamId>, i: nat, cnt: int): Net
    requires t < |net.tasks| && i < |order| && order[i] < |net.streams|
    requires net.streams[order[i]].ring.WellFormed()
  {
    var s := order[i];
    var x := net.tasks[t];
    if Top(net.streams[s].ring) != NULL then
      if x.token then
        net.(tasks := net.tasks[t := x.(pc := PCheck(order, cnt), token := false, wakeupSd := s,
                                        takers := x.takers + [Poller])])
      else
        Goto(net, t, PBlocked(order, cnt))
    else
      Goto(SetStream(net, s, net.streams[s].(isPoll := true)), t,
           if i + 1 < |order| then PRegister(order, i + 1, cnt + 1) else PBlocked(order, cnt + 1))
  }

  /** One locked iteration of the unregistering loop. */
  function PollUnregister(net: Net, t: TaskId, order: seq<StreamId>, i: nat, cnt: int): Net
    requires t < |net.tasks| && i < |order| && order[i] < |net.streams|
  {
    var s := order[i];
    var done := cnt - 1 == 0 || i + 1 == |order|;
    Goto(SetStream(net, s, net.streams[s].(isPoll := false)), t,
         if done then PReturn(order, false, net.tasks[t].wakeupSd) else PUnregister(order, i + 1, cnt - 1))
  }

  /** The next atomic step of task t's operation. */
  function Proceed(net: Net, t: TaskId): Net
    requires t < |net.tasks| && WellFormed(net)
    requires IsBlocked(net.tasks[t].pc) ==> net.tasks[t].wakes > 0
  {
    assert PcOk(net, t);
    match net.tasks[t].pc
    case Running => net
    case WBlocked(s, item) => Resume(net, t, WPut(s, item))
    case WPut(s, item) => WriteLocked(net, t, s, item)
    case WRaise(s, pollWakeup) => WriteV(net, t, s, pollWakeup)
    case WSetSd(s) => Goto(SetWakeupSd(net, net.streams[s].cons, s), t, WUnblock(s))
    case WUnblock(s) => Unblock(Goto(net, t, Running), net.streams[s].cons)
    case RBlocked(s) => Resume(net, t, RTop(s))
    case RTop(s) => Goto(net, t, RPop(s, Top(net.streams[s].ring)))
    case RPop(s, item) => Goto(SetStream(net, s, PopItem(net.streams[s])), t, RRaise(s, item))
    case RRaise(s, item) => ReadV(net, t, s, item)
    case RUnblock(s, item) => Unblock(Goto(net, t, Running), net.streams[s].prod)
    case PFast(order, i) => PollFast(net, t, order, i)
    case PPlace(order) => PollPlace(net, t, order)
    case PRegister(order, i, cnt) => PollRegister(net, t, order, i, cnt)
    case PBlocked(order, cnt) => Resume(net, t, PCheck(order, cnt))
    case PCheck(order, cnt) => Goto(net, t, PUnregister(order, 0, cnt))
    case PUnregister(order, i, cnt) => PollUnregister(net, t, order, i, cnt)
    case PReturn(order, fast, sd) => Goto(net, t, Running)
  }

  function Apply(net: Net, a: Action): Net
    requires WellFormed(net) && Enabled(net, a)
  {
    match a
    case BeginWrite(t, s, item) => WriteP(net, t, s, item)
    case BeginRead(t, s) => ReadP(net, t, s)
    case BeginPoll(t, order) => Goto(net, t, PFast(order, 0))
    case Continue(t) => Proceed(net, t)
  }

  ghost predicate Init(net: Net) {
    && (forall t :: 0 <= t < |net.tasks| ==>
          && net.tasks[t].pc == Running && !net.tasks[t].token && net.tasks[t].wakes == 0)
    && (forall s :: 0 <= s < |net.streams| ==> FreshStream(net, net.streams[s]))
  }

  ghost predicate FreshStream(net: Net, x: Stream) {
    && x.prod < |net.tasks|
    && x.cons < |net.tasks|
    && exists size: nat :: size < UINT_RANGE && x == Create(size, x.prod, x.cons)
  }

  /** A run: consecutive states joined by enabled actions. */
  ghost predicate IsRun(states: seq<Net>, acts: seq<Action>) {
    && |states| == |acts| + 1
    && Init(states[0])
    && forall i :: 0 <= i < |acts| ==>
         WellFormed(states[i]) && Enabled(states[i], acts[i]) && states[i + 1] == Apply(states[i], acts[i])
  }

  // ---------------------------------------------------------------------------
  // The invariant

  function Bit(b: bool): int { if b then 1 else 0 }

  /** The items put into stream x and not yet popped. */
  function Queue(x: Stream): seq<Pointer>
    requires |x.rcvd| <= |x.sent|
  {
    x.sent[|x.rcvd|..]
  }

  predicate ClaimsSpace(pc: Pc, s: StreamId) { (pc.WBlocked? || pc.WPut?) && pc.s == s }
  predicate OwesItem(pc: Pc, s: StreamId) { pc.WRaise? && pc.s == s }
  predicate ClaimsItem(pc: Pc, s: StreamId) { (pc.RBlocked? || pc.RTop? || pc.RPop?) && pc.s == s }
  predicate OwesSpace(pc: Pc, s: StreamId) { pc.RRaise? && pc.s == s }

  /** Reader r of stream s is blocked on it and no unblock of it has been decided; w is the writer. */
  predicate ReaderAsleep(s: StreamId, w: Task, r: Task) {
    r.pc == RBlocked(s) && r.wakes == 0 && w.pc != WUnblock(s)
  }

  /** Writer w of stream s is blocked on it and no unblock of it has been decided; r is the reader. */
  predicate WriterAsleep(s: StreamId, w: Task, r: Task) {
    w.pc.WBlocked? && w.pc.s == s && w.wakes == 0 && !(r.pc.RUnblock? && r.pc.s == s)
  }

  /** Counters, ring, histories of stream s against the state of its writer w and reader r. */
  ghost predicate StreamOk(s: StreamId, x: Stream, w: Task, r: Task) {
    && x.rcvd <= x.sent
    && NULL !in x.sent
    && Holds(x.ring, Queue(x))
    && x.nSem == |x.sent| - |x.rcvd| - Bit(OwesItem(w.pc, s)) - Bit(ClaimsItem(r.pc, s))
    && x.eSem == |x.ring.data| - (|x.sent| - |x.rcvd|) - Bit(ClaimsSpace(w.pc, s)) - Bit(OwesSpace(r.pc, s))
    && (if ReaderAsleep(s, w, r) then x.nSem == -1 else x.nSem >= 0)
    && (if WriterAsleep(s, w, r) then x.eSem == -1 else x.eSem >= 0)
    && (r.pc.RPop? && r.pc.s == s ==> Queue(x) != [] && r.pc.item == Queue(x)[0])
    && ((r.pc.RRaise? || r.pc.RUnblock?) && r.pc.s == s ==> x.rcvd != [] && r.pc.item == x.rcvd[|x.rcvd| - 1])
    && (x.isPoll ==> s in Registered(r.pc))
  }

  ghost predicate StreamInv(net: Net, s: StreamId)
    requires s < |net.streams|
  {
    var x := net.streams[s];
    && x.prod < |net.tasks|
    && x.cons < |net.tasks|
    && StreamOk(s, x, net.tasks[x.prod], net.tasks[x.cons])
  }

  /** The streams a polling task may have flagged with is_poll. */
  function Registered(pc: Pc): seq<StreamId> {
    match pc
    case PRegister(order, i, cnt) => if i <= |order| then order[..i] else []
    case PBlocked(order, cnt) => if 0 <= cnt <= |order| then order[..cnt] else []
    case PCheck(order, cnt) => if 0 <= cnt <= |order| then order[..cnt] else []
    case PUnregister(order, i, cnt) => if 0 < cnt && i + cnt <= |order| then order[i..i + cnt] else []
    case _ => []
  }

  /** t waits, or is about to wait, in a poll whose token the producer of s has taken. */
  ghost predicate AwaitsProducer(net: Net, t: TaskId, s: StreamId)
    requires t < |net.tasks|
  {
    var x := net.tasks[t];
    && (x.pc.PRegister? || x.pc.PBlocked?)
    && !x.token
    && x.takers == [Producer(s)]
  }

  ghost predicate NonEmpty(net: Net, s: StreamId) {
    s < |net.streams| && |net.streams[s].rcvd| < |net.streams[s].sent|
  }

  /** The producer of s will unblock its polling consumer. */
  ghost predicate OwesPollWakeup(net: Net, s: StreamId) {
    && s < |net.streams|
    && net.streams[s].prod < |net.tasks|
    && var pc := net.tasks[net.streams[s].prod].pc;
    (pc == WRaise(s, true) || pc == WSetSd(s) || pc == WUnblock(s))
  }

  /** A wakeup owed by task t goes to a task that still waits for exactly that wakeup. */
  ghost predicate OwedWakeupIsExpected(net: Net, t: TaskId)
    requires t < |net.tasks| && PcOk(net, t)
  {
    var pc := net.tasks[t].pc;
    && (pc.WUnblock? || pc.WSetSd? || (pc.WRaise? && pc.pollWakeup) ==>
          var c := net.streams[pc.s].cons;
          && c < |net.tasks|
          && net.tasks[c].wakes == 0
          && (AwaitsProducer(net, c, pc.s) || (pc.WUnblock? && net.tasks[c].pc == RBlocked(pc.s)))
          && (pc.WUnblock? && net.tasks[c].pc != RBlocked(pc.s) ==> net.tasks[c].wakeupSd == pc.s))
    && (pc.RUnblock? ==>
          var p := net.streams[pc.s].prod;
          && p < |net.tasks|
          && net.tasks[p].wakes == 0
          && net.tasks[p].pc.WBlocked? && net.tasks[p].pc.s == pc.s)
  }

  /** A wakeup in flight to t is the one t waits for. */
  ghost predicate PendingWakeupIsExpected(net: Net, t: TaskId)
    requires t < |net.tasks|
  {
    var x := net.tasks[t];
    && x.wakes <= 1
    && (x.wakes == 1 ==>
          || x.pc.RBlocked?
          || x.pc.WBlocked?
          || AwaitsProducer(net, t, x.wakeupSd))
  }

  ghost predicate PollInv(net: Net, t: TaskId)
    requires t < |net.tasks|
  {
    var x := net.tasks[t];
    && (x.token ==> (x.pc.PRegister? || x.pc.PBlocked?) && x.takers == [])
    && (x.pc.PRegister? ==> x.pc.cnt == x.pc.i)
    && (x.pc.PBlocked? || x.pc.PCheck? ==> 0 <= x.pc.cnt <= |x.pc.order|)
    && (x.pc.PUnregister? ==> (x.pc.cnt > 0 && x.pc.i + x.pc.cnt <= |x.pc.order|) || x.pc.cnt + x.pc.i == 0)
    && (x.pc.PRegister? || x.pc.PBlocked? ==>
          && x.resumes == 0
          && (if x.token then AllRegisteredEmpty(net, t) else TokenTakenByProducer(net, t)))
    && (x.pc.PBlocked? && x.token ==> x.pc.cnt == |x.pc.order|)
    && (x.pc.PCheck? || x.pc.PUnregister? || (x.pc.PReturn? && !x.pc.fast) ==>
          && ((x.takers == [Poller] && x.resumes == 0) || (x.takers == [Producer(x.wakeupSd)] && x.resumes == 1))
          && x.wakeupSd in x.pc.order
          && NonEmpty(net, x.wakeupSd))
    && (x.pc.PReturn? ==>
          && x.pc.sd in x.pc.order
          && NonEmpty(net, x.pc.sd)
          && (!x.pc.fast ==> x.pc.sd == x.wakeupSd))
  }

  ghost predicate AllRegisteredEmpty(net: Net, t: TaskId)
    requires t < |net.tasks|
  {
    var reg := Registered(net.tasks[t].pc);
    forall j :: 0 <= j < |reg| ==>
      reg[j] < |net.streams| && net.streams[reg[j]].isPoll && !NonEmpty(net, reg[j])
  }

  ghost predicate TokenTakenByProducer(net: Net, t: TaskId)
    requires t < |net.tasks| && (net.tasks[t].pc.PRegister? || net.tasks[t].pc.PBlocked?)
  {
    var x := net.tasks[t];
    && |x.takers| == 1
    && x.takers[0].Producer?
    && var s := x.takers[0].s;
    && s in x.pc.order
    && NonEmpty(net, s)
    && (if x.wakes == 1 then x.wakeupSd == s else OwesPollWakeup(net, s))
  }

  ghost predicate TaskInv(net: Net, t: TaskId)
    requires t < |net.tasks|
  {
    && PcOk(net, t)
    && OwedWakeupIsExpected(net, t)
    && PendingWakeupIsExpected(net, t)
    && PollInv(net, t)
  }

  ghost predicate Inv(net: Net) {
    && (forall s :: 0 <= s < |net.streams| ==> StreamInv(net, s))
    && (forall t :: 0 <= t < |net.tasks| ==> TaskInv(net, t))
  }

  lemma InvImpliesWellFormed(net: Net)
    requires Inv(net)
    ensures WellFormed(net)
  {
    forall s | 0 <= s < |net.streams|
      ensures net.streams[s].prod < |net.tasks| && net.streams[s].cons < |net.tasks| && net.streams[s].ring.WellFormed()
    {
      assert StreamInv(net, s);
    }
    forall t | 0 <= t < |net.tasks|
      ensures PcOk(net, t)
    {
      assert TaskInv(net, t);
    }
  }

  lemma InitInv(net: Net)
    requires Init(net)
    ensures Inv(net)
  {
    forall s | 0 <= s < |net.streams|
      ensures StreamInv(net, s)
    {
      var x := net.streams[s];
      assert FreshStream(net, x);
      var size: nat :| size < UINT_RANGE && x == Create(size, x.prod, x.cons);
      EmptyHolds(if size == 0 then DEFAULT_SIZE else size);
      assert Queue(x) == [];
    }
  }

  // ---------------------------------------------------------------------------
  // What a step leaves alone

  /** Task w keeps its part as the writer of s. */
  predicate SameWriter(s: StreamId, w: Task, w': Task) {
    if IsWriting(w.pc) && w.pc.s == s then w'.pc == w.pc && w'.wakes == w.wakes
    else !(IsWriting(w'.pc) && w'.pc.s == s)
  }

  /** Task r keeps its part as the reader of s. */
  predicate SameReader(s: StreamId, r: Task, r': Task) {
    && (if IsReading(r.pc) && r.pc.s == s then r'.pc == r.pc && r'.wakes == r.wakes
        else !(IsReading(r'.pc) && r'.pc.s == s))
    && (s in Registered(r.pc) ==> s in Registered(r'.pc))
  }

  lemma StreamOkFrame(s: StreamId, x: Stream, w: Task, r: Task, w': Task, r': Task)
    requires StreamOk(s, x, w, r) && SameWriter(s, w, w') && SameReader(s, r, r')
    ensures StreamOk(s, x, w', r')
  {
  }

  /** Only stream s and tasks' parts in s may differ. */
  ghost predicate OnlyStream(net: Net, net': Net, s: StreamId) {
    && |net'.tasks| == |net.tasks|
    && |net'.streams| == |net.streams|
    && forall s2 :: 0 <= s2 < |net.streams| && s2 != s ==>
         && net'.streams[s2] == net.streams[s2]
         && forall t :: 0 <= t < |net.tasks| ==>
              SameWriter(s2, net.tasks[t], net'.tasks[t]) && SameReader(s2, net.tasks[t], net'.tasks[t])
  }

  lemma StreamsFrame(net: Net, net': Net, s: StreamId)
    requires Inv(net) && OnlyStream(net, net', s)
    requires s < |net.streams| ==> StreamInv(net', s)
    ensures forall s2 :: 0 <= s2 < |net'.streams| ==> StreamInv(net', s2)
  {
    forall s2 | 0 <= s2 < |net'.streams| && s2 != s
      ensures StreamInv(net', s2)
    {
      var x := net.streams[s2];
      assert StreamInv(net, s2);
      StreamOkFrame(s2, x, net.tasks[x.prod], net.tasks[x.cons], net'.tasks[x.prod], net'.tasks[x.cons]);
    }
  }

  predicate SameStream(x: Stream, x': Stream) {
    && x'.prod == x.prod && x'.cons == x.cons && x'.sent == x.sent && x'.rcvd == x.rcvd && x'.isPoll == x.isPoll
  }

  /** The streams that task t polls have the same ends, contents and poll flag. */
  ghost predicate SamePolled(net: Net, net': Net, t: TaskId) {
    && |net'.tasks| == |net.tasks|
    && |net'.streams| == |net.streams|
    && forall s :: 0 <= s < |net.streams| && net.streams[s].cons == t ==> SameStream(net.streams[s], net'.streams[s])
  }

  lemma PollInvFrame(net: Net, net': Net, t: TaskId)
    requires SamePolled(net, net', t) && t < |net.tasks| && net'.tasks[t] == net.tasks[t]
    requires PollInv(net, t) && PcOk(net, t)
    requires forall s :: AwaitsProducer(net, t, s) && OwesPollWakeup(net, s) ==> OwesPollWakeup(net', s)
    ensures PollInv(net', t)
  {
    var x := net.tasks[t];
    if IsPolling(x.pc) {
      forall s | s in x.pc.order
        ensures NonEmpty(net, s) <==> NonEmpty(net', s)
      {
        var i :| 0 <= i < |x.pc.order| && x.pc.order[i] == s;
        assert SameStream(net.streams[s], net'.streams[s]);
      }
      if x.pc.PRegister? || x.pc.PBlocked? {
        if x.token {
          var reg := Registered(x.pc);
          forall j | 0 <= j < |reg|
            ensures reg[j] < |net'.streams| && net'.streams[reg[j]].isPoll && !NonEmpty(net', reg[j])
          {
            assert reg[j] == x.pc.order[j];
            assert SameStream(net.streams[reg[j]], net'.streams[reg[j]]);
          }
        } else if x.wakes != 1 {
          assert AwaitsProducer(net, t, x.takers[0].s);
        }
      }
    }
  }

  /** t owes c a wakeup. */
  ghost predicate Owes(net: Net, t: TaskId, c: TaskId)
    requires t < |net.tasks| && PcOk(net, t)
  {
    var pc := net.tasks[t].pc;
    || ((pc.WUnblock? || pc.WSetSd? || (pc.WRaise? && pc.pollWakeup)) && net.streams[pc.s].cons == c)
    || (pc.RUnblock? && net.streams[pc.s].prod == c)
  }

  predicate SameWaiter(x: Task, x': Task) {
    && x'.wakes == x.wakes && x'.token == x.token && x'.takers == x.takers && x'.wakeupSd == x.wakeupSd
    && (x'.pc == x.pc || ((x.pc.PRegister? || x.pc.PBlocked?) && (x'.pc.PRegister? || x'.pc.PBlocked?)))
  }

  ghost predicate SameEnds(net: Net, net': Net) {
    && |net'.tasks| == |net.tasks|
    && |net'.streams| == |net.streams|
    && forall s :: 0 <= s < |net.streams| ==>
         net'.streams[s].prod == net.streams[s].prod && net'.streams[s].cons == net.streams[s].cons
  }

  lemma OwedFrame(net: Net, net': Net, t: TaskId)
    requires SameEnds(net, net') && t < |net.tasks| && net'.tasks[t].pc == net.tasks[t].pc
    requires PcOk(net, t) && OwedWakeupIsExpected(net, t)
    requires forall c :: 0 <= c < |net.tasks| && Owes(net, t, c) ==> SameWaiter(net.tasks[c], net'.tasks[c])
    ensures PcOk(net', t) && OwedWakeupIsExpected(net', t)
  {
    var pc := net.tasks[t].pc;
    if pc.WUnblock? || pc.WSetSd? || (pc.WRaise? && pc.pollWakeup) {
      assert Owes(net, t, net.streams[pc.s].cons);
    }
    if pc.RUnblock? {
      assert Owes(net, t, net.streams[pc.s].prod);
    }
  }

  /** A task the step does not touch, whose debtors and creditors keep their part. */
  lemma TaskFrame(net: Net, net': Net, t: TaskId)
    requires SameEnds(net, net') && t < |net.tasks| && net'.tasks[t] == net.tasks[t]
    requires SamePolled(net, net', t)
    requires TaskInv(net, t)
    requires forall c :: 0 <= c < |net.tasks| && Owes(net, t, c) ==> SameWaiter(net.tasks[c], net'.tasks[c])
    requires forall s :: AwaitsProducer(net, t, s) && OwesPollWakeup(net, s) ==> OwesPollWakeup(net', s)
    ensures TaskInv(net', t)
  {
    OwedFrame(net, net', t);
    PollInvFrame(net, net', t);
  }

  lemma TaskAt(net: Net, t: TaskId)
    requires Inv(net) && t < |net.tasks|
    ensures TaskInv(net, t)
  {
  }

  lemma StreamAt(net: Net, s: StreamId)
    requires Inv(net) && s < |net.streams|
    ensures StreamInv(net, s)
  {
  }

  predicate Waits(x: Task) {
    x.wakes == 0 && (x.pc.RBlocked? || x.pc.WBlocked? || x.pc.PRegister? || x.pc.PBlocked?)
  }

  /** Nobody owes a wakeup to a task that is not waiting for one. */
  lemma NoDebtor(net: Net, c: TaskId)
    requires Inv(net) && WellFormed(net) && c < |net.tasks| && !Waits(net.tasks[c])
    ensures forall t :: 0 <= t < |net.tasks| ==> !Owes(net, t, c)
  {
    forall t | 0 <= t < |net.tasks|
      ensures !Owes(net, t, c)
    {
      TaskAt(net, t);
    }
  }

  /** No task is owed two wakeups. */
  lemma OneDebtor(net: Net, t: TaskId, c: TaskId)
    requires Inv(net) && WellFormed(net) && t < |net.tasks| && c < |net.tasks| && Owes(net, t, c)
    ensures forall t2 :: 0 <= t2 < |net.tasks| && Owes(net, t2, c) ==> t2 == t
  {
    TaskAt(net, t);
    forall t2 | 0 <= t2 < |net.tasks| && Owes(net, t2, c)
      ensures t2 == t
    {
      TaskAt(net, t2);
    }
  }

  /** Tasks other than t and c, whom the step does not touch. */
  ghost predicate OnlyTasks(net: Net, net': Net, t: TaskId, c: TaskId) {
    && SameEnds(net, net')
    && t < |net.tasks| && c < |net.tasks|
    && forall t2 :: 0 <= t2 < |net.tasks| && t2 != t && t2 != c ==> net'.tasks[t2] == net.tasks[t2]
  }

  /** Whoever owes x a wakeup finds it waiting as before. */
  ghost predicate Steady(net: Net, net': Net, t: TaskId, c: TaskId, x: TaskId)
    requires WellFormed(net) && x < |net.tasks| && |net'.tasks| == |net.tasks|
  {
    || SameWaiter(net.tasks[x], net'.tasks[x])
    || forall t2 :: 0 <= t2 < |net.tasks| && t2 != t && t2 != c ==> !Owes(net, t2, x)
  }

  lemma OthersKeep(net: Net, net': Net, t: TaskId, c: TaskId)
    requires Inv(net) && WellFormed(net) && OnlyTasks(net, net', t, c)
    requires Steady(net, net', t, c, t) && Steady(net, net', t, c, c)
    requires forall t2 :: 0 <= t2 < |net.tasks| && t2 != t && t2 != c ==> SamePolled(net, net', t2)
    requires forall s: StreamId :: OwesPollWakeup(net, s) ==> OwesPollWakeup(net', s) || net.streams[s].cons in {t, c}
    ensures forall t2 :: 0 <= t2 < |net'.tasks| && t2 != t && t2 != c ==> TaskInv(net', t2)
  {
    forall t2 | 0 <= t2 < |net'.tasks| && t2 != t && t2 != c
      ensures TaskInv(net', t2)
    {
      TaskAt(net, t2);
      forall s: StreamId | AwaitsProducer(net, t2, s) && OwesPollWakeup(net, s)
        ensures OwesPollWakeup(net', s)
      {
        TaskAt(net, net.streams[s].prod);
        assert net.streams[s].cons == t2;
      }
      TaskFrame(net, net', t2);
    }
  }

  /** pc is outside stream operations, or inside one on s. */
  predicate At(pc: Pc, s: StreamId) {
    pc.Running? || ((IsWriting(pc) || IsReading(pc)) && pc.s == s)
  }

  predicate OwesPoll(pc: Pc) {
    pc.WSetSd? || pc.WUnblock? || (pc.WRaise? && pc.pollWakeup)
  }

  lemma MoveFrame(net: Net, net': Net, t: TaskId, s: StreamId, y: Task, x: Stream)
    requires t < |net.tasks| && s < |net.streams|
    requires net' == Net(net.tasks[t := y], net.streams[s := x])
    requires At(net.tasks[t].pc, s) && At(y.pc, s)
    ensures OnlyStream(net, net', s)
  {
    forall s2, t2 | 0 <= s2 < |net.streams| && s2 != s && 0 <= t2 < |net.tasks|
      ensures SameWriter(s2, net.tasks[t2], net'.tasks[t2]) && SameReader(s2, net.tasks[t2], net'.tasks[t2])
    {
    }
  }

  /** A step of task t in an operation on s that leaves the contents of s alone. */
  lemma MoveInv(net: Net, net': Net, t: TaskId, s: StreamId, y: Task, x: Stream)
    requires Inv(net) && WellFormed(net) && t < |net.tasks| && s < |net.streams|
    requires net' == Net(net.tasks[t := y], net.streams[s := x])
    requires SameStream(net.streams[s], x)
    requires At(net.tasks[t].pc, s) && At(y.pc, s) && !Waits(net.tasks[t])
    requires OwesPoll(net.tasks[t].pc) ==> OwesPoll(y.pc) && y.pc.s == s
    requires StreamInv(net', s) && TaskInv(net', t)
    ensures Inv(net')
  {
    MoveFrame(net, net', t, s, y, x);
    StreamsFrame(net, net', s);
    NoDebtor(net, t);
    forall s2: StreamId | OwesPollWakeup(net, s2)
      ensures OwesPollWakeup(net', s2)
    {
    }
    OthersKeep(net, net', t, t);
  }

  // ---------------------------------------------------------------------------
  // Writing

  lemma WritePOk(s: StreamId, x: Stream, w: Task, r: Task, w': Task, r': Task, item: Pointer)
    requires StreamOk(s, x, w, r) && w.pc.Running? && w.wakes == 0
    requires w' == w.(pc := if x.eSem == 0 then WBlocked(s, item) else WPut(s, item))
    requires SameReader(s, r, r') && !(r.pc.RUnblock? && r.pc.s == s)
    ensures StreamOk(s, x.(eSem := x.eSem - 1), w', r')
  {
  }

  lemma WritePInv(net: Net, t: TaskId, s: StreamId, item: Pointer)
    requires Inv(net) && WellFormed(net) && Enabled(net, BeginWrite(t, s, item))
    ensures Inv(WriteP(net, t, s, item))
  {
    var net' := WriteP(net, t, s, item);
    var x := net.streams[s];
    StreamAt(net, s);
    TaskAt(net, t);
    TaskAt(net, x.cons);
    WritePOk(s, x, net.tasks[t], net.tasks[x.cons], net'.tasks[t], net'.tasks[x.cons], item);
    MoveInv(net, net', t, s, net'.tasks[t], net'.streams[s]);
  }

  lemma WResumeInv(net: Net, t: TaskId)
    requires Inv(net) && WellFormed(net) && Enabled(net, Continue(t)) && net.tasks[t].pc.WBlocked?
    ensures Inv(Proceed(net, t))
  {
    var net' := Proceed(net, t);
    TaskAt(net, t);
    var s := net.tasks[t].pc.s;
    StreamAt(net, s);
    MoveInv(net, net', t, s, net'.tasks[t], net'.streams[s]);
  }

  lemma WriteVOk(s: StreamId, x: Stream, w: Task, r: Task, w': Task, r': Task, pollWakeup: bool)
    requires StreamOk(s, x, w, r) && w.pc == WRaise(s, pollWakeup)
    requires w' == w.(pc := if x.nSem < 0 then WUnblock(s) else if pollWakeup then WSetSd(s) else Running)
    requires SameReader(s, r, r')
    ensures StreamOk(s, x.(nSem := x.nSem + 1), w', r')
    ensures x.nSem < 0 ==> ReaderAsleep(s, w, r)
  {
  }

  lemma WriteVSelf(net: Net, t: TaskId)
    requires Inv(net) && WellFormed(net) && Enabled(net, Continue(t)) && net.tasks[t].pc.WRaise?
    ensures TaskInv(Proceed(net, t), t)
  {
    TaskAt(net, t);
    StreamAt(net, net.tasks[t].pc.s);
    TaskAt(net, net.streams[net.tasks[t].pc.s].cons);
  }

  lemma WriteVInv(net: Net, t: TaskId)
    requires Inv(net) && WellFormed(net) && Enabled(net, Continue(t)) && net.tasks[t].pc.WRaise?
    ensures Inv(Proceed(net, t))
  {
    var net' := Proceed(net, t);
    TaskAt(net, t);
    var pc := net.tasks[t].pc;
    var x := net.streams[pc.s];
    StreamAt(net, pc.s);
    TaskAt(net, x.cons);
    WriteVOk(pc.s, x, net.tasks[t], net.tasks[x.cons], net'.tasks[t], net'.tasks[x.cons], pc.pollWakeup);
    WriteVSelf(net, t);
    MoveInv(net, net', t, pc.s, net'.tasks[t], net'.streams[pc.s]);
  }

  // ---------------------------------------------------------------------------
  // Reading

  lemma ReadPOk(s: StreamId, x: Stream, w: Task, r: Task, w': Task, r': Task)
    requires StreamOk(s, x, w, r) && r.pc.Running? && r.wakes == 0
    requires r' == r.(pc := if x.nSem == 0 then RBlocked(s) else RTop(s))
    requires SameWriter(s, w, w') && w.pc != WUnblock(s)
    requires !x.isPoll
    ensures StreamOk(s, x.(nSem := x.nSem - 1), w', r')
  {
  }

  lemma ReadPInv(net: Net, t: TaskId, s: StreamId)
    requires Inv(net) && WellFormed(net) && Enabled(net, BeginRead(t, s))
    ensures Inv(ReadP(net, t, s))
  {
    var net' := ReadP(net, t, s);
    var x := net.streams[s];
    StreamAt(net, s);
    TaskAt(net, t);
    TaskAt(net, x.prod);
    ReadPOk(s, x, net.tasks[x.prod], net.tasks[t], net'.tasks[x.prod], net'.tasks[t]);
    MoveInv(net, net', t, s, net'.tasks[t], net'.streams[s]);
  }

  lemma RResumeInv(net: Net, t: TaskId)
    requires Inv(net) && WellFormed(net) && Enabled(net, Continue(t)) && net.tasks[t].pc.RBlocked?
    ensures Inv(Proceed(net, t))
  {
    var net' := Proceed(net, t);
    TaskAt(net, t);
    var s := net.tasks[t].pc.s;
    StreamAt(net, s);
    MoveInv(net, net', t, s, net'.tasks[t], net'.streams[s]);
  }

  lemma RTopInv(net: Net, t: TaskId)
    requires Inv(net) && WellFormed(net) && Enabled(net, Continue(t)) && net.tasks[t].pc.RTop?
    ensures Inv(Proceed(net, t))
  {
    var net' := Proceed(net, t);
    TaskAt(net, t);
    var s := net.tasks[t].pc.s;
    StreamAt(net, s);
    TopIsOldest(net.streams[s].ring, Queue(net.streams[s]));
    MoveInv(net, net', t, s, net'.tasks[t], net'.streams[s]);
  }

  lemma ReadVOk(s: StreamId, x: Stream, w: Task, r: Task, w': Task, r': Task, item: Pointer)
    requires StreamOk(s, x, w, r) && r.pc == RRaise(s, item)
    requires r' == r.(pc := if x.eSem < 0 then RUnblock(s, item) else Running)
    requires SameWriter(s, w, w')
    ensures StreamOk(s, x.(eSem := x.eSem + 1), w', r')
    ensures x.eSem < 0 ==> WriterAsleep(s, w, r)
  {
  }

  lemma ReadVInv(net: Net, t: TaskId)
    requires Inv(net) && WellFormed(net) && Enabled(net, Continue(t)) && net.tasks[t].pc.RRaise?
    ensures Inv(Proceed(net, t))
  {
    var net' := Proceed(net, t);
    TaskAt(net, t);
    var pc := net.tasks[t].pc;
    var x := net.streams[pc.s];
    StreamAt(net, pc.s);
    TaskAt(net, x.prod);
    ReadVOk(pc.s, x, net.tasks[x.prod], net.tasks[t], net'.tasks[x.prod], net'.tasks[t], pc.item);
    MoveInv(net, net', t, pc.s, net'.tasks[t], net'.streams[pc.s]);
  }

  // ---------------------------------------------------------------------------
  // Waking the peer

  lemma HandoverFrame(net: Net, net': Net, t: TaskId, c: TaskId, s: StreamId, y: Task, z: Task)
    requires t < |net.tasks| && c < |net.tasks| && t != c && s < |net.streams|
    requires net' == net.(tasks := net.tasks[t := y][c := z])
    requires At(net.tasks[t].pc, s) && At(y.pc, s)
    requires z.pc == net.tasks[c].pc && (At(z.pc, s) || IsPolling(z.pc))
    ensures OnlyStream(net, net', s)
  {
    forall s2, t2 | 0 <= s2 < |net.streams| && s2 != s && 0 <= t2 < |net.tasks|
      ensures SameWriter(s2, net.tasks[t2], net'.tasks[t2]) && SameReader(s2, net.tasks[t2], net'.tasks[t2])
    {
    }
  }

  /** Task t, which owes c a wakeup over stream s, hands over to c. */
  lemma HandoverInv(net: Net, net': Net, t: TaskId, c: TaskId, s: StreamId, y: Task, z: Task)
    requires Inv(net) && WellFormed(net) && t < |net.tasks| && c < |net.tasks| && t != c && s < |net.streams|
    requires net' == net.(tasks := net.tasks[t := y][c := z])
    requires At(net.tasks[t].pc, s) && At(y.pc, s) && !Waits(net.tasks[t])
    requires z.pc == net.tasks[c].pc && (At(z.pc, s) || IsPolling(z.pc))
    requires Owes(net, t, c)
    requires StreamInv(net', s) && TaskInv(net', t) && TaskInv(net', c)
    ensures Inv(net')
  {
    HandoverFrame(net, net', t, c, s, y, z);
    StreamsFrame(net, net', s);
    NoDebtor(net, t);
    OneDebtor(net, t, c);
    forall s2: StreamId | OwesPollWakeup(net, s2)
      ensures OwesPollWakeup(net', s2) || net.streams[s2].cons in {t, c}
    {
    }
    OthersKeep(net, net', t, c);
  }

  lemma WSetSdInv(net: Net, t: TaskId)
    requires Inv(net) && WellFormed(net) && Enabled(net, Continue(t)) && net.tasks[t].pc.WSetSd?
    ensures Inv(Proceed(net, t))
  {
    var net' := Proceed(net, t);
    TaskAt(net, t);
    var s := net.tasks[t].pc.s;
    var c := net.streams[s].cons;
    StreamAt(net, s);
    TaskAt(net, c);
    HandoverInv(net, net', t, c, s, net'.tasks[t], net'.tasks[c]);
  }

  lemma WUnblockConsumer(net: Net, t: TaskId)
    requires Inv(net) && WellFormed(net) && Enabled(net, Continue(t)) && net.tasks[t].pc.WUnblock?
    ensures PcOk(net, t) && TaskInv(Proceed(net, t), net.streams[net.tasks[t].pc.s].cons)
  {
    TaskAt(net, t);
    TaskAt(net, net.streams[net.tasks[t].pc.s].cons);
  }

  lemma WUnblockStream(net: Net, t: TaskId)
    requires Inv(net) && WellFormed(net) && Enabled(net, Continue(t)) && net.tasks[t].pc.WUnblock?
    ensures PcOk(net, t) && |Proceed(net, t).streams| == |net.streams|
    ensures StreamInv(Proceed(net, t), net.tasks[t].pc.s) && TaskInv(Proceed(net, t), t)
  {
    TaskAt(net, t);
    StreamAt(net, net.tasks[t].pc.s);
    TaskAt(net, net.streams[net.tasks[t].pc.s].cons);
  }

  lemma WUnblockInv(net: Net, t: TaskId)
    requires Inv(net) && WellFormed(net) && Enabled(net, Continue(t)) && net.tasks[t].pc.WUnblock?
    ensures Inv(Proceed(net, t))
  {
    var net' := Proceed(net, t);
    TaskAt(net, t);
    var s := net.tasks[t].pc.s;
    var c := net.streams[s].cons;
    WUnblockStream(net, t);
    WUnblockConsumer(net, t);
    HandoverInv(net, net', t, c, s, net'.tasks[t], net'.tasks[c]);
  }

  lemma RUnblockInv(net: Net, t: TaskId)
    requires Inv(net) && WellFormed(net) && Enabled(net, Continue(t)) && net.tasks[t].pc.RUnblock?
    ensures Inv(Proceed(net, t))
  {
    var net' := Proceed(net, t);
    TaskAt(net, t);
    var s := net.tasks[t].pc.s;
    var c := net.streams[s].prod;
    StreamAt(net, s);
    TaskAt(net, c);
    HandoverInv(net, net', t, c, s, net'.tasks[t], net'.tasks[c]);
  }

  // ---------------------------------------------------------------------------
  // Moving an item

  lemma PutOk(s: StreamId, x: Stream, w: Task, r: Task, w': Task, r': Task, item: Pointer)
    requires StreamOk(s, x, w, r) && w.pc == WPut(s, item) && item != NULL
    requires w'.pc.WRaise? && w'.pc.s == s
    requires SameReader(s, r, r')
    ensures IsSpace(x.ring)
    ensures StreamOk(s, PutItem(x, item), w', r')
  {
    IsSpaceIffNotFull(x.ring, Queue(x));
    PutAppends(x.ring, Queue(x), item);
    assert Queue(PutItem(x, item)) == Queue(x) + [item];
  }

  lemma PopOk(s: StreamId, x: Stream, w: Task, r: Task, w': Task, r': Task, item: Pointer)
    requires StreamOk(s, x, w, r) && r.pc == RPop(s, item)
    requires r' == r.(pc := RRaise(s, item))
    requires SameWriter(s, w, w')
    ensures StreamOk(s, PopItem(x), w', r')
  {
    TopIsOldest(x.ring, Queue(x));
    PopRemovesOldest(x.ring, Queue(x));
    assert Queue(PopItem(x)) == Queue(x)[1..];
  }

  lemma RPopInv(net: Net, t: TaskId)
    requires Inv(net) && WellFormed(net) && Enabled(net, Continue(t)) && net.tasks[t].pc.RPop?
    ensures Inv(Proceed(net, t))
  {
    var net' := Proceed(net, t);
    TaskAt(net, t);
    var pc := net.tasks[t].pc;
    var x := net.streams[pc.s];
    StreamAt(net, pc.s);
    PopOk(pc.s, x, net.tasks[x.prod], net.tasks[t], net'.tasks[x.prod], net'.tasks[t], pc.item);
    MoveFrame(net, net', t, pc.s, net'.tasks[t], net'.streams[pc.s]);
    StreamsFrame(net, net', pc.s);
    NoDebtor(net, t);
    OthersKeep(net, net', t, t);
  }

  /** Task t is about to put item into s, whose consumer is c. */
  ghost predicate Putting(net: Net, t: TaskId, s: StreamId, item: Pointer, c: TaskId) {
    && Inv(net) && WellFormed(net)
    && t < |net.tasks| && c < |net.tasks| && s < |net.streams|
    && net.tasks[t].pc == WPut(s, item)
    && net.streams[s].cons == c
  }

  /** If c polls, its token is taken exactly when s is registered. */
  lemma PutPollInv(net: Net, t: TaskId, s: StreamId, item: Pointer, c: TaskId)
    requires Putting(net, t, s, item, c) && c != t
    ensures PollInv(WriteLocked(net, t, s, item), c)
  {
    var net' := WriteLocked(net, t, s, item);
    TaskAt(net, t);
    TaskAt(net, c);
    StreamAt(net, s);
    var x := net.tasks[c];
    assert forall s2: StreamId :: NonEmpty(net, s2) ==> NonEmpty(net', s2);
    if x.pc.PRegister? || x.pc.PBlocked? {
      if x.token && !net.streams[s].isPoll {
        var reg := Registered(x.pc);
        forall j | 0 <= j < |reg|
          ensures reg[j] < |net'.streams| && net'.streams[reg[j]].isPoll && !NonEmpty(net', reg[j])
        {
          assert reg[j] != s;
        }
      } else if x.token {
        assert s in x.pc.order;
        assert TokenTakenByProducer(net', c);
      } else if x.wakes != 1 {
        assert OwesPollWakeup(net', x.takers[0].s);
      }
    }
  }

  lemma PutFrame(net: Net, t: TaskId, s: StreamId, item: Pointer, c: TaskId)
    requires Putting(net, t, s, item, c)
    ensures OnlyStream(net, WriteLocked(net, t, s, item), s)
  {
    var net' := WriteLocked(net, t, s, item);
    forall s2, t2 | 0 <= s2 < |net.streams| && s2 != s && 0 <= t2 < |net.tasks|
      ensures SameWriter(s2, net.tasks[t2], net'.tasks[t2]) && SameReader(s2, net.tasks[t2], net'.tasks[t2])
    {
    }
  }

  /** A poller whose token is still there is owed nothing, so taking its token disturbs no debt. */
  lemma PutSteady(net: Net, t: TaskId, s: StreamId, item: Pointer, c: TaskId)
    requires Putting(net, t, s, item, c)
    ensures Steady(net, WriteLocked(net, t, s, item), t, c, c)
  {
    if c == t {
      NoDebtor(net, t);
    } else if net.streams[s].isPoll && net.tasks[c].token {
      StreamAt(net, s);
      TaskAt(net, c);
      forall t2 | 0 <= t2 < |net.tasks|
        ensures !Owes(net, t2, c)
      {
        TaskAt(net, t2);
      }
    }
  }

  lemma PutOthers(net: Net, t: TaskId, s: StreamId, item: Pointer, c: TaskId)
    requires Putting(net, t, s, item, c)
    ensures forall t2 :: 0 <= t2 < |net.tasks| && t2 != t && t2 != c ==> TaskInv(WriteLocked(net, t, s, item), t2)
  {
    var net' := WriteLocked(net, t, s, item);
    NoDebtor(net, t);
    PutSteady(net, t, s, item, c);
    OthersKeep(net, net', t, c);
  }

  lemma PutConsumer(net: Net, t: TaskId, s: StreamId, item: Pointer, c: TaskId)
    requires Putting(net, t, s, item, c) && c != t
    ensures TaskInv(WriteLocked(net, t, s, item), c)
  {
    var net' := WriteLocked(net, t, s, item);
    StreamAt(net, s);
    TaskAt(net, c);
    TaskAt(net, t);
    NoDebtor(net, t);
    PutPollInv(net, t, s, item, c);
    OwedFrame(net, net', c);
  }

  lemma PutSelf(net: Net, t: TaskId, s: StreamId, item: Pointer, c: TaskId)
    requires Putting(net, t, s, item, c)
    ensures TaskInv(WriteLocked(net, t, s, item), t)
  {
    StreamAt(net, s);
    TaskAt(net, c);
    TaskAt(net, t);
  }

  lemma PutStream(net: Net, t: TaskId, s: StreamId, item: Pointer, c: TaskId)
    requires Putting(net, t, s, item, c)
    ensures StreamInv(WriteLocked(net, t, s, item), s)
  {
    var net' := WriteLocked(net, t, s, item);
    TaskAt(net, t);
    StreamAt(net, s);
    PutOk(s, net.streams[s], net.tasks[t], net.tasks[c], net'.tasks[t], net'.tasks[c], item);
  }

  lemma WriteLockedInv(net: Net, t: TaskId)
    requires Inv(net) && WellFormed(net) && Enabled(net, Continue(t)) && net.tasks[t].pc.WPut?
    ensures Inv(Proceed(net, t))
  {
    TaskAt(net, t);
    var s, item := net.tasks[t].pc.s, net.tasks[t].pc.item;
    var c := net.streams[s].cons;
    PutStream(net, t, s, item, c);
    PutFrame(net, t, s, item, c);
    StreamsFrame(net, WriteLocked(net, t, s, item), s);
    PutOthers(net, t, s, item, c);
    PutSelf(net, t, s, item, c);
    if c != t {
      PutConsumer(net, t, s, item, c);
    }
  }

  // ---------------------------------------------------------------------------
  // Polling

  /** Task t steps inside a poll; at most stream s changes, and only its poll flag. */
  ghost predicate PollStep(net: Net, net': Net, t: TaskId, s: StreamId, y: Task, flag: bool) {
    && Inv(net) && WellFormed(net)
    && t < |net.tasks| && s < |net.streams|
    && net' == Net(net.tasks[t := y], net.streams[s := net.streams[s].(isPoll := flag)])
    && net.streams[s].cons == t
    && (IsPolling(net.tasks[t].pc) || net.tasks[t].pc.Running?)
    && (IsPolling(y.pc) || y.pc.Running?)
  }

  lemma PollStepFrame(net: Net, net': Net, t: TaskId, s: StreamId, y: Task, flag: bool)
    requires PollStep(net, net', t, s, y, flag)
    requires forall s2 :: s2 in Registered(net.tasks[t].pc) && s2 != s ==> s2 in Registered(y.pc)
    requires flag ==> s in Registered(y.pc)
    ensures forall s2 :: 0 <= s2 < |net'.streams| ==> StreamInv(net', s2)
  {
    forall s2, t2 | 0 <= s2 < |net.streams| && s2 != s && 0 <= t2 < |net.tasks|
      ensures SameWriter(s2, net.tasks[t2], net'.tasks[t2]) && SameReader(s2, net.tasks[t2], net'.tasks[t2])
    {
    }
    StreamAt(net, s);
    StreamsFrame(net, net', s);
  }

  lemma PollStepInv(net: Net, net': Net, t: TaskId, s: StreamId, y: Task, flag: bool)
    requires PollStep(net, net', t, s, y, flag)
    requires forall s2 :: s2 in Registered(net.tasks[t].pc) && s2 != s ==> s2 in Registered(y.pc)
    requires flag ==> s in Registered(y.pc)
    requires SameWaiter(net.tasks[t], y) || !Waits(net.tasks[t]) || net.tasks[t].token
    requires TaskInv(net', t)
    ensures Inv(net')
  {
    PollStepFrame(net, net', t, s, y, flag);
    forall t2 | 0 <= t2 < |net.tasks|
      ensures !SameWaiter(net.tasks[t], y) ==> !Owes(net, t2, t)
    {
      TaskAt(net, t2);
    }
    forall s2: StreamId | OwesPollWakeup(net, s2)
      ensures OwesPollWakeup(net', s2)
    {
    }
    OthersKeep(net, net', t, t);
  }

  lemma BeginPollInv(net: Net, t: TaskId, order: seq<StreamId>)
    requires Inv(net) && WellFormed(net) && Enabled(net, BeginPoll(t, order))
    ensures Inv(Goto(net, t, PFast(order, 0)))
  {
    var net' := Goto(net, t, PFast(order, 0));
    TaskAt(net, t);
    var s := order[0];
    StreamAt(net, s);
    PollStepInv(net, net', t, s, net'.tasks[t], net.streams[s].isPoll);
  }

  lemma PFastInv(net: Net, t: TaskId)
    requires Inv(net) && WellFormed(net) && Enabled(net, Continue(t)) && net.tasks[t].pc.PFast?
    ensures Inv(Proceed(net, t))
  {
    var net' := Proceed(net, t);
    TaskAt(net, t);
    var s := net.tasks[t].pc.order[net.tasks[t].pc.i];
    StreamAt(net, s);
    TopIsOldest(net.streams[s].ring, Queue(net.streams[s]));
    PollStepInv(net, net', t, s, net'.tasks[t], net.streams[s].isPoll);
  }

  lemma PPlaceInv(net: Net, t: TaskId)
    requires Inv(net) && WellFormed(net) && Enabled(net, Continue(t)) && net.tasks[t].pc.PPlace?
    ensures Inv(Proceed(net, t))
  {
    var net' := Proceed(net, t);
    TaskAt(net, t);
    var s := net.tasks[t].pc.order[0];
    StreamAt(net, s);
    PollStepInv(net, net', t, s, net'.tasks[t], net.streams[s].isPoll);
  }

  lemma PRegisterEmptyPoll(net: Net, t: TaskId)
    requires Inv(net) && WellFormed(net) && Enabled(net, Continue(t)) && net.tasks[t].pc.PRegister?
    requires PcOk(net, t) && !NonEmpty(net, net.tasks[t].pc.order[net.tasks[t].pc.i])
    ensures PollInv(Proceed(net, t), t)
  {
    var net' := Proceed(net, t);
    TaskAt(net, t);
    var order, i := net.tasks[t].pc.order, net.tasks[t].pc.i;
    var s := order[i];
    StreamAt(net, s);
    TopIsOldest(net.streams[s].ring, Queue(net.streams[s]));
    var reg, reg' := Registered(net.tasks[t].pc), Registered(net'.tasks[t].pc);
    assert reg' == reg + [s];
    assert forall s2: StreamId :: NonEmpty(net, s2) <==> NonEmpty(net', s2);
    if net.tasks[t].token {
      forall j | 0 <= j < |reg'|
        ensures reg'[j] < |net'.streams| && net'.streams[reg'[j]].isPoll && !NonEmpty(net', reg'[j])
      {
        assert j < |reg| ==> reg'[j] == reg[j];
      }
    } else if net.tasks[t].wakes != 1 {
      assert OwesPollWakeup(net', net.tasks[t].takers[0].s);
    }
  }

  /** An empty stream is registered. */
  lemma PRegisterEmpty(net: Net, t: TaskId)
    requires Inv(net) && WellFormed(net) && Enabled(net, Continue(t)) && net.tasks[t].pc.PRegister?
    requires PcOk(net, t) && !NonEmpty(net, net.tasks[t].pc.order[net.tasks[t].pc.i])
    ensures Inv(Proceed(net, t))
  {
    var net' := Proceed(net, t);
    PRegisterEmptyPoll(net, t);
    TaskAt(net, t);
    var order, i := net.tasks[t].pc.order, net.tasks[t].pc.i;
    StreamAt(net, order[i]);
    TopIsOldest(net.streams[order[i]].ring, Queue(net.streams[order[i]]));
    assert Registered(net'.tasks[t].pc) == Registered(net.tasks[t].pc) + [order[i]];
    PollStepInv(net, net', t, order[i], net'.tasks[t], true);
  }

  /** A non-empty stream ends the loop: the poller takes its own token, or has lost it already. */
  lemma PRegisterNonEmpty(net: Net, t: TaskId)
    requires Inv(net) && WellFormed(net) && Enabled(net, Continue(t)) && net.tasks[t].pc.PRegister?
    requires PcOk(net, t) && NonEmpty(net, net.tasks[t].pc.order[net.tasks[t].pc.i])
    ensures Inv(Proceed(net, t))
  {
    var net' := Proceed(net, t);
    TaskAt(net, t);
    var s := net.tasks[t].pc.order[net.tasks[t].pc.i];
    StreamAt(net, s);
    TopIsOldest(net.streams[s].ring, Queue(net.streams[s]));
    assert forall s2: StreamId :: NonEmpty(net, s2) <==> NonEmpty(net', s2);
    if !net.tasks[t].token && net.tasks[t].wakes != 1 {
      assert OwesPollWakeup(net', net.tasks[t].takers[0].s);
    }
    assert PollInv(net', t);
    PollStepInv(net, net', t, s, net'.tasks[t], net.streams[s].isPoll);
  }

  lemma PBlockedInv(net: Net, t: TaskId)
    requires Inv(net) && WellFormed(net) && Enabled(net, Continue(t)) && net.tasks[t].pc.PBlocked?
    ensures Inv(Proceed(net, t))
  {
    var net' := Proceed(net, t);
    TaskAt(net, t);
    var s := net.tasks[t].pc.order[0];
    StreamAt(net, s);
    PollStepInv(net, net', t, s, net'.tasks[t], net.streams[s].isPoll);
  }

  lemma PCheckInv(net: Net, t: TaskId)
    requires Inv(net) && WellFormed(net) && Enabled(net, Continue(t)) && net.tasks[t].pc.PCheck?
    ensures Inv(Proceed(net, t))
  {
    var net' := Proceed(net, t);
    TaskAt(net, t);
    var s := net.tasks[t].pc.order[0];
    StreamAt(net, s);
    PollStepInv(net, net', t, s, net'.tasks[t], net.streams[s].isPoll);
  }

  lemma PUnregisterSelf(net: Net, t: TaskId)
    requires Inv(net) && WellFormed(net) && Enabled(net, Continue(t)) && net.tasks[t].pc.PUnregister?
    ensures TaskInv(Proceed(net, t), t)
  {
    TaskAt(net, t);
    assert forall s: StreamId :: NonEmpty(net, s) <==> NonEmpty(Proceed(net, t), s);
  }

  lemma PUnregisterInv(net: Net, t: TaskId)
    requires Inv(net) && WellFormed(net) && Enabled(net, Continue(t)) && net.tasks[t].pc.PUnregister?
    ensures Inv(Proceed(net, t))
  {
    var net' := Proceed(net, t);
    PUnregisterSelf(net, t);
    PUnregisterLeaves(net, t);
    var s := net.tasks[t].pc.order[net.tasks[t].pc.i];
    PollStepInv(net, net', t, s, net'.tasks[t], false);
  }

  /** Only the stream of this iteration is no longer registered. */
  lemma PUnregisterLeaves(net: Net, t: TaskId)
    requires Inv(net) && WellFormed(net) && Enabled(net, Continue(t)) && net.tasks[t].pc.PUnregister?
    ensures PcOk(net, t) && |Proceed(net, t).tasks| == |net.tasks|
    ensures var pc := net.tasks[t].pc;
      forall s :: s in Registered(pc) && s != pc.order[pc.i] ==> s in Registered(Proceed(net, t).tasks[t].pc)
  {
    TaskAt(net, t);
    var pc := net.tasks[t].pc;
    if pc.cnt > 0 {
      RegisteredNext(pc.order, pc.i, pc.cnt);
    }
  }

  lemma RegisteredNext(order: seq<StreamId>, i: nat, cnt: int)
    requires cnt > 0 && i + cnt <= |order|
    ensures Registered(PUnregister(order, i, cnt)) == [order[i]] + Registered(PUnregister(order, i + 1, cnt - 1))
  {
    assert order[i..i + cnt] == [order[i]] + order[i + 1..i + cnt];
  }

  lemma PReturnInv(net: Net, t: TaskId)
    requires Inv(net) && WellFormed(net) && Enabled(net, Continue(t)) && net.tasks[t].pc.PReturn?
    ensures Inv(Proceed(net, t))
  {
    var net' := Proceed(net, t);
    TaskAt(net, t);
    var s := net.tasks[t].pc.order[0];
    StreamAt(net, s);
    PollStepInv(net, net', t, s, net'.tasks[t], net.streams[s].isPoll);
  }

  lemma ProceedInv(net: Net, t: TaskId)
    requires Inv(net) && WellFormed(net) && Enabled(net, Continue(t))
    ensures Inv(Proceed(net, t))
  {
    TaskAt(net, t);
    match net.tasks[t].pc
    case WBlocked(_, _) => WResumeInv(net, t);
    case WPut(_, _) => WriteLockedInv(net, t);
    case WRaise(_, _) => WriteVInv(net, t);
    case WSetSd(_) => WSetSdInv(net, t);
    case WUnblock(_) => WUnblockInv(net, t);
    case RBlocked(_) => RResumeInv(net, t);
    case RTop(_) => RTopInv(net, t);
    case RPop(_, _) => RPopInv(net, t);
    case RRaise(_, _) => ReadVInv(net, t);
    case RUnblock(_, _) => RUnblockInv(net, t);
    case PFast(_, _) => PFastInv(net, t);
    case PPlace(_) => PPlaceInv(net, t);
    case PRegister(order, i, _) =>
      if NonEmpty(net, order[i]) {
        PRegisterNonEmpty(net, t);
      } else {
        PRegisterEmpty(net, t);
      }
    case PBlocked(_, _) => PBlockedInv(net, t);
    case PCheck(_, _) => PCheckInv(net, t);
    case PUnregister(_, _, _) => PUnregisterInv(net, t);
    case PReturn(_, _, _) => PReturnInv(net, t);
  }

  /** Every action keeps the invariant. */
  lemma ApplyInv(net: Net, a: Action)
    requires Inv(net) && WellFormed(net) && Enabled(net, a)
    ensures Inv(Apply(net, a))
  {
    match a
    case BeginWrite(t, s, item) => WritePInv(net, t, s, item);
    case BeginRead(t, s) => ReadPInv(net, t, s);
    case BeginPoll(t, order) => BeginPollInv(net, t, order);
    case Continue(t) => ProceedInv(net, t);
  }

  /** An action moves no program counter but that of its own task. */
  lemma OthersStay(net: Net, a: Action, t: TaskId)
    requires WellFormed(net) && Enabled(net, a) && t < |net.tasks| && a.t != t
    ensures |Apply(net, a).tasks| == |net.tasks| && Apply(net, a).tasks[t].pc == net.tasks[t].pc
  {
    assert PcOk(net, a.t);
  }

  /** Every state of every run satisfies the invariant. */
  lemma {:induction false} RunInv(states: seq<Net>, acts: seq<Action>, i: nat)
    requires IsRun(states, acts) && i < |states|
    ensures Inv(states[i])
  {
    if i == 0 {
      InitInv(states[0]);
    } else {
      RunInv(states, acts, i - 1);
      ApplyInv(states[i - 1], acts[i - 1]);
    }
  }

  ghost predicate Reachable(net: Net) {
    exists states, acts :: IsRun(states, acts) && net in states
  }

  lemma ReachableInv(net: Net)
    requires Reachable(net)
    ensures Inv(net) && WellFormed(net)
  {
    var states, acts :| IsRun(states, acts) && net in states;
    var i :| 0 <= i < |states| && states[i] == net;
    RunInv(states, acts, i);
    InvImpliesWellFormed(net);
  }

  lemma {:induction false} ExtendRun(states: seq<Net>, acts: seq<Action>, i: nat, a: Action)
    requires IsRun(states, acts) && i < |states| && WellFormed(states[i]) && Enabled(states[i], a)
    ensures IsRun(states[..i + 1] + [Apply(states[i], a)], acts[..i] + [a])
  {
    var states', acts' := states[..i + 1] + [Apply(states[i], a)], acts[..i] + [a];
    forall j | 0 <= j < |acts'|
      ensures WellFormed(states'[j]) && Enabled(states'[j], acts'[j]) && states'[j + 1] == Apply(states'[j], acts'[j])
    {
      assert states'[j] == states[j];
      assert j < i ==> acts'[j] == acts[j] && states'[j + 1] == states[j + 1];
    }
  }

  lemma ReachableStep(net: Net, a: Action) returns (net': Net)
    requires Reachable(net) && WellFormed(net) && Enabled(net, a)
    ensures net' == Apply(net, a) && Reachable(net') && WellFormed(net')
  {
    net' := Apply(net, a);
    var states, acts :| IsRun(states, acts) && net in states;
    var i :| 0 <= i < |states| && states[i] == net;
    ExtendRun(states, acts, i, a);
    var states' := states[..i + 1] + [net'];
    assert states'[i + 1] == net';
    ReachableInv(net');
  }
}
