/**
  The intrusive lock-free task queue (mpsctq.c): any number of enqueuers, one dequeuer. One step
  is one access to shared memory; `tail` belongs to the dequeuer.
 */
module Mpsc {
  /** A queue node: the dummy inside the queue, or a task */
  datatype Node = Stub | Task(id: nat)

  datatype Ptr = Null | To(node: Node)

  /** The queue's fields and every node's next pointer; a node outside the map has next == NULL. */
  datatype Memory = Memory(head: Node, tail: Node, next: map<Node, Node>)

  function Next(m: Memory, n: Node): Ptr {
    if n in m.next then To(m.next[n]) else Null
  }

  function Clear(m: Memory, n: Node): Memory {
    m.(next := m.next - {n})
  }

  function Link(m: Memory, prev: Node, t: Node): Memory {
    m.(next := m.next[prev := t])
  }

  /** An enqueuer that has swapped `head` from prev to t and still owes the link. */
  datatype Owes = Owes(prev: Node, t: Node)

  /** The dequeuer's position in MpscTqDequeue */
  datatype Pc =
    | Idle
    | SkipRead(n: Node)               // the stub was first: next is read from n
    | SkipClear(n: Node, next: Ptr)   // stub.next is to be cleared
    | CheckHead(tail: Node, next: Ptr)
    | SwapStub(tail: Node)
    | LinkStub(tail: Node, prev: Node)
    | Reread(tail: Node)
    | Finish(tail: Node, next: Ptr)

  type Thread = nat

  /**
    `chain` (nodes from tail to head), `swaps` (tasks in the order of their swaps) and `out` (tasks
    returned so far) are history.
   */
  datatype State = State(
    mem: Memory, flight: map<Thread, Owes>, pc: Pc,
    chain: seq<Node>, swaps: seq<Node>, out: seq<Node>)

  datatype Action = Swap(e: Thread, t: Node) | LinkUp(e: Thread) | Dequeue

  /** The tasks among nodes */
  function Tasks(nodes: seq<Node>): (s: seq<Node>)
    ensures Stub !in s
    ensures forall n :: n in s ==> n in nodes
  {
    if nodes == [] then [] else (if nodes[0] == Stub then [] else [nodes[0]]) + Tasks(nodes[1..])
  }

  /** MpscTqInit */
  function Init(): State {
    State(Memory(Stub, Stub, map[]), map[], Idle, [Stub], [], [])
  }

  /** The caller owns a task that it enqueues: it is not in the queue. */
  ghost predicate Enabled(st: State, a: Action) {
    match a
    case Swap(e, t) => e !in st.flight && t != Stub && t !in st.chain
    case LinkUp(e) => e in st.flight
    case Dequeue => true
  }

  /** MpscTqEnqueue's atomic exchange */
  function SwapHead(st: State, e: Thread, t: Node): State {
    st.(mem := st.mem.(head := t), flight := st.flight[e := Owes(st.mem.head, t)],
        chain := st.chain + [t], swaps := st.swaps + [t])
  }

  function LinkStep(st: State, e: Thread): State
    requires e in st.flight
  {
    var w := st.flight[e];
    st.(mem := Link(st.mem, w.prev, w.t), flight := st.flight - {e})
  }

  /** The beginning of MpscTqDequeue: reads tail->next. */
  function Begin(st: State): State {
    var tail := st.mem.tail;
    var next := Next(st.mem, tail);
    if tail != Stub then st.(pc := CheckHead(tail, next))
    else if next == Null then st
    else st.(mem := st.mem.(tail := next.node), pc := SkipRead(next.node),
             chain := if st.chain == [] then [] else st.chain[1..])
  }

  /** One step of the dequeuer */
  function DequeueStep(st: State): State {
    match st.pc
    case Idle => Begin(st)
    case SkipRead(n) => st.(pc := SkipClear(n, Next(st.mem, n)))
    case SkipClear(n, next) => st.(mem := Clear(st.mem, Stub), pc := Finish(n, next))
    case CheckHead(tail, next) => st.(pc := if tail == st.mem.head then SwapStub(tail) else Finish(tail, next))
    case SwapStub(tail) =>
      st.(mem := st.mem.(head := Stub), pc := LinkStub(tail, st.mem.head), chain := st.chain + [Stub])
    case LinkStub(tail, prev) => st.(mem := Link(st.mem, prev, Stub), pc := Reread(tail))
    case Reread(tail) => st.(pc := Finish(tail, Next(st.mem, tail)))
    case Finish(tail, next) =>
      if next == Null then st.(pc := Idle)
      else st.(mem := Clear(st.mem.(tail := next.node), tail), pc := Idle,
               chain := if st.chain == [] then [] else st.chain[1..], out := st.out + [tail])
  }

  function Apply(st: State, a: Action): State
    requires Enabled(st, a)
  {
    match a
    case Swap(e, t) => SwapHead(st, e, t)
    case LinkUp(e) => LinkStep(st, e)
    case Dequeue => DequeueStep(st)
  }

  ghost predicate IsRun(states: seq<State>, acts: seq<Action>) {
    && |states| == |acts| + 1
    && states[0] == Init()
    && forall i :: 0 <= i < |acts| ==> Enabled(states[i], acts[i]) && states[i + 1] == Apply(states[i], acts[i])
  }

  ghost predicate Reachable(st: State) {
    exists states, acts :: IsRun(states, acts) && st in states
  }

  // ---------------------------------------------------------------------------
  // The invariant

  ghost predicate Distinct(s: seq<Node>) {
    forall i, j :: 0 <= i < j < |s| ==> s[i] != s[j]
  }

  /** The link after chain[i] is present and right, or owed. */
  ghost predicate LinkedAt(chain: seq<Node>, next: map<Node, Node>, owed: set<Owes>, i: nat)
    requires i + 1 < |chain|
  {
    if chain[i] in next then next[chain[i]] == chain[i + 1] else Owes(chain[i], chain[i + 1]) in owed
  }

  /** w names two neighbours of the chain. */
  ghost predicate Neighbours(chain: seq<Node>, w: Owes) {
    exists i: nat {:trigger At(chain, w, i)} :: At(chain, w, i)
  }

  ghost predicate At(chain: seq<Node>, w: Owes, i: nat) {
    i + 1 < |chain| && chain[i] == w.prev && chain[i + 1] == w.t
  }

  /**
    The links of a chain: each is present or owed, and what is owed is missing. No other node has
    a successor, except `skipped`.
   */
  ghost predicate Linked(chain: seq<Node>, next: map<Node, Node>, owed: set<Owes>, skipped: set<Node>) {
    && chain != [] && Distinct(chain)
    && (forall i: nat :: i + 1 < |chain| ==> LinkedAt(chain, next, owed, i))
    && (forall w :: w in owed ==> w.prev !in next && Neighbours(chain, w))
    && chain[|chain| - 1] !in next
    && (forall n :: n in next ==> n in chain || n in skipped)
  }

  /** The links somebody has swapped for and not made yet */
  ghost function OwedLinks(st: State): set<Owes> {
    (set e | e in st.flight :: st.flight[e]) + OwedByDequeuer(st.pc)
  }

  ghost function OwedByDequeuer(pc: Pc): set<Owes> {
    if pc.LinkStub? then {Owes(pc.prev, Stub)} else {}
  }

  ghost function Skipped(pc: Pc): set<Node> {
    if pc.SkipRead? || pc.SkipClear? then {Stub} else {}
  }

  /** The chain runs from tail to head. */
  ghost predicate ChainOk(st: State) {
    && Linked(st.chain, st.mem.next, OwedLinks(st), Skipped(st.pc))
    && st.chain[0] == st.mem.tail && st.chain[|st.chain| - 1] == st.mem.head
  }

  /** No link is owed by two parties. */
  ghost predicate FlightOk(st: State) {
    && (forall e, f :: e in st.flight && f in st.flight && e != f ==> st.flight[e].prev != st.flight[f].prev)
    && (st.pc.LinkStub? ==> forall e :: e in st.flight ==> st.flight[e].prev != st.pc.prev)
  }

  /** A successor the dequeuer has seen */
  ghost predicate Seen(mem: Memory, tail: Node, next: Ptr) {
    && tail != Stub && mem.tail == tail
    && (next.To? ==> tail in mem.next && mem.next[tail] == next.node)
  }

  ghost predicate PcOk(st: State) {
    match st.pc
    case Idle => true
    case SkipRead(n) => Seen(st.mem, n, Null) && Next(st.mem, Stub) == To(n) && Stub !in st.chain
    case SkipClear(n, next) => Seen(st.mem, n, next) && Next(st.mem, Stub) == To(n) && Stub !in st.chain
    case CheckHead(tail, next) => Seen(st.mem, tail, next)
    case SwapStub(tail) => Seen(st.mem, tail, Null) && Stub !in st.chain
    case LinkStub(tail, _) => Seen(st.mem, tail, Null)
    case Reread(tail) => Seen(st.mem, tail, Null)
    case Finish(tail, next) => Seen(st.mem, tail, next)
  }

  ghost predicate Inv(st: State) {
    && ChainOk(st) && FlightOk(st) && PcOk(st)
    && st.swaps == st.out + Tasks(st.chain)
  }

  lemma {:induction false} TasksAppend(nodes: seq<Node>, n: Node)
    ensures Tasks(nodes + [n]) == Tasks(nodes) + if n == Stub then [] else [n]
  {
    if nodes != [] {
      assert (nodes + [n])[1..] == nodes[1..] + [n];
      TasksAppend(nodes[1..], n);
    }
  }

  // Changes of the chain

  /** A swap appends n, and the link to n becomes owed. */
  lemma LinkedGrow(chain: seq<Node>, next: map<Node, Node>, owed: set<Owes>, skipped: set<Node>, n: Node)
    requires Linked(chain, next, owed, skipped) && n !in chain && n !in next
    ensures Linked(chain + [n], next, owed + {Owes(chain[|chain| - 1], n)}, skipped)
    ensures forall w :: w in owed ==> w.prev != chain[|chain| - 1]
  {
    var k := |chain| - 1;
    var w0 := Owes(chain[k], n);
    var chain', owed' := chain + [n], owed + {w0};
    forall i: nat | i + 1 < |chain'| ensures LinkedAt(chain', next, owed', i) {
      if i < k {
        assert LinkedAt(chain, next, owed, i);
      }
    }
    assert At(chain', w0, k);
    forall w | w in owed ensures w.prev !in next && Neighbours(chain', w) && w.prev != chain[k] {
      var i: nat :| At(chain, w, i);
      assert At(chain', w, i);
    }
  }

  /** An owed link is made. */
  lemma LinkedLink(chain: seq<Node>, next: map<Node, Node>, owed: set<Owes>, skipped: set<Node>, w: Owes)
    requires Linked(chain, next, owed, skipped) && w in owed
    requires forall v :: v in owed && v != w ==> v.prev != w.prev
    ensures Linked(chain, next[w.prev := w.t], owed - {w}, skipped)
  {
    var k: nat :| At(chain, w, k);
    var next', owed' := next[w.prev := w.t], owed - {w};
    forall i: nat | i + 1 < |chain| ensures LinkedAt(chain, next', owed', i) {
      assert LinkedAt(chain, next, owed, i);
      assert i != k ==> chain[i] != w.prev;
    }
    forall v | v in owed' ensures v.prev !in next' && Neighbours(chain, v) {
      assert Neighbours(chain, v);
    }
  }

  /** The first node leaves the chain, its link is present. */
  lemma LinkedDrop(chain: seq<Node>, next: map<Node, Node>, owed: set<Owes>)
    requires Linked(chain, next, owed, {}) && chain[0] in next
    ensures |chain| > 1 && next[chain[0]] == chain[1] && chain[0] !in chain[1..]
    ensures Linked(chain[1..], next - {chain[0]}, owed, {})
    ensures Linked(chain[1..], next, owed, {chain[0]})
  {
    assert LinkedAt(chain, next, owed, 0);
    var chain', next' := chain[1..], next - {chain[0]};
    forall i: nat | i + 1 < |chain'| ensures LinkedAt(chain', next, owed, i) && LinkedAt(chain', next', owed, i) {
      assert LinkedAt(chain, next, owed, i + 1);
    }
    forall w | w in owed ensures w.prev !in next && Neighbours(chain', w) {
      var i: nat :| At(chain, w, i);
      assert At(chain', w, i - 1);
    }
  }

  /** A skipped node outside the chain is cleared. */
  lemma LinkedClear(chain: seq<Node>, next: map<Node, Node>, owed: set<Owes>, n: Node)
    requires Linked(chain, next, owed, {n}) && n !in chain
    ensures Linked(chain, next - {n}, owed, {})
  {
    forall i: nat | i + 1 < |chain| ensures LinkedAt(chain, next - {n}, owed, i) {
      assert LinkedAt(chain, next, owed, i);
    }
  }

  // The steps

  lemma SwapOwed(st: State, e: Thread, t: Node)
    requires Enabled(st, Swap(e, t))
    ensures OwedLinks(SwapHead(st, e, t)) == OwedLinks(st) + {Owes(st.mem.head, t)}
  {
    var st' := SwapHead(st, e, t);
    assert st'.flight[e] == Owes(st.mem.head, t);
    forall f | f in st.flight ensures f in st'.flight && st'.flight[f] == st.flight[f] {
    }
  }

  lemma SwapInv(st: State, e: Thread, t: Node)
    requires Inv(st) && Enabled(st, Swap(e, t))
    ensures Inv(SwapHead(st, e, t))
  {
    SwapOwed(st, e, t);
    LinkedGrow(st.chain, st.mem.next, OwedLinks(st), Skipped(st.pc), t);
    TasksAppend(st.chain, t);
    SwapFlight(st, e, t);
  }

  /** Nobody owes the old head's link yet. */
  lemma SwapFlight(st: State, e: Thread, t: Node)
    requires FlightOk(st) && Enabled(st, Swap(e, t))
    requires forall w :: w in OwedLinks(st) ==> w.prev != st.mem.head
    ensures FlightOk(SwapHead(st, e, t))
  {
    forall f | f in st.flight ensures st.flight[f].prev != st.mem.head {
      assert st.flight[f] in OwedLinks(st);
    }
    assert st.pc.LinkStub? ==> Owes(st.pc.prev, Stub) in OwedLinks(st);
  }

  lemma LinkOwed(st: State, e: Thread)
    requires FlightOk(st) && e in st.flight
    ensures OwedLinks(LinkStep(st, e)) == OwedLinks(st) - {st.flight[e]}
  {
    var st' := LinkStep(st, e);
    forall w | w in OwedLinks(st) - {st.flight[e]} ensures w in OwedLinks(st') {
      if w !in OwedByDequeuer(st.pc) {
        var f :| f in st.flight && st.flight[f] == w;
        assert f in st'.flight && st'.flight[f] == w;
      }
    }
  }

  lemma LinkInv(st: State, e: Thread)
    requires Inv(st) && e in st.flight
    ensures Inv(LinkStep(st, e))
  {
    var w := st.flight[e];
    assert w in OwedLinks(st);
    LinkOwed(st, e);
    LinkedLink(st.chain, st.mem.next, OwedLinks(st), Skipped(st.pc), w);
  }

  lemma BeginInv(st: State)
    requires Inv(st) && st.pc.Idle?
    ensures Inv(Begin(st))
  {
    if st.mem.tail == Stub && Stub in st.mem.next {
      SkipInv(st);
    } else {
      assert OwedLinks(Begin(st)) == OwedLinks(st);
    }
  }

  lemma SkipInv(st: State)
    requires Inv(st) && st.pc.Idle? && st.mem.tail == Stub && Stub in st.mem.next
    ensures Inv(Begin(st))
  {
    var st' := Begin(st);
    assert OwedLinks(st') == OwedLinks(st);
    LinkedDrop(st.chain, st.mem.next, OwedLinks(st));
    assert Skipped(st'.pc) == {st.chain[0]};
    assert st'.chain == st.chain[1..];
    assert ChainOk(st');
  }

  lemma FinishInv(st: State)
    requires Inv(st) && st.pc.Finish?
    ensures Inv(DequeueStep(st))
  {
    var st' := DequeueStep(st);
    assert OwedLinks(st') == OwedLinks(st);
    if st.pc.next.To? {
      FinishChain(st);
      FinishTasks(st);
    }
  }

  lemma FinishTasks(st: State)
    requires Inv(st) && st.pc.Finish? && st.pc.next.To?
    ensures DequeueStep(st).swaps == DequeueStep(st).out + Tasks(DequeueStep(st).chain)
  {
    assert st.chain[0] == st.pc.tail;
  }

  lemma FinishChain(st: State)
    requires Inv(st) && st.pc.Finish? && st.pc.next.To?
    ensures DequeueStep(st).chain == st.chain[1..] && ChainOk(DequeueStep(st))
  {
    LinkedDrop(st.chain, st.mem.next, OwedLinks(st));
    assert OwedLinks(DequeueStep(st)) == OwedLinks(st);
  }

  lemma SkipClearInv(st: State)
    requires Inv(st) && st.pc.SkipClear?
    ensures Inv(DequeueStep(st))
  {
    assert OwedLinks(DequeueStep(st)) == OwedLinks(st);
    LinkedClear(st.chain, st.mem.next, OwedLinks(st), Stub);
  }

  /** The dequeuer's own enqueue of the stub; the asserts before it hold. */
  lemma SwapStubInv(st: State)
    requires Inv(st) && st.pc.SwapStub?
    ensures Inv(DequeueStep(st)) && Next(st.mem, Stub) == Null
  {
    var st' := DequeueStep(st);
    assert OwedLinks(st') == OwedLinks(st) + {Owes(st.mem.head, Stub)};
    LinkedGrow(st.chain, st.mem.next, OwedLinks(st), {}, Stub);
    TasksAppend(st.chain, Stub);
    forall e | e in st.flight ensures st.flight[e].prev != st.mem.head {
      assert st.flight[e] in OwedLinks(st);
    }
  }

  lemma LinkStubInv(st: State)
    requires Inv(st) && st.pc.LinkStub?
    ensures Inv(DequeueStep(st))
  {
    var w := Owes(st.pc.prev, Stub);
    assert OwedLinks(DequeueStep(st)) == OwedLinks(st) - {w};
    LinkedLink(st.chain, st.mem.next, OwedLinks(st), {}, w);
  }

  /** When tail and head are the same node it is the only one, so the stub is outside. */
  lemma CheckHeadInv(st: State)
    requires Inv(st) && st.pc.CheckHead?
    ensures Inv(DequeueStep(st))
  {
    assert OwedLinks(DequeueStep(st)) == OwedLinks(st);
    if st.pc.tail == st.mem.head {
      assert st.chain == [st.pc.tail];
    }
  }

  lemma DequeueStepInv(st: State)
    requires Inv(st)
    ensures Inv(DequeueStep(st))
  {
    match st.pc
    case Idle => BeginInv(st);
    case SkipClear(_, _) => SkipClearInv(st);
    case SwapStub(_) => SwapStubInv(st);
    case LinkStub(_, _) => LinkStubInv(st);
    case Finish(_, _) => FinishInv(st);
    case CheckHead(_, _) => CheckHeadInv(st);
    case _ => assert OwedLinks(DequeueStep(st)) == OwedLinks(st);
  }

  lemma ApplyInv(st: State, a: Action)
    requires Inv(st) && Enabled(st, a)
    ensures Inv(Apply(st, a))
  {
    match a
    case Swap(e, t) => SwapInv(st, e, t);
    case LinkUp(e) => LinkInv(st, e);
    case Dequeue => DequeueStepInv(st);
  }

  lemma {:induction false} RunInv(states: seq<State>, acts: seq<Action>, i: nat)
    requires IsRun(states, acts) && i < |states|
    ensures Inv(states[i])
  {
    if i > 0 {
      RunInv(states, acts, i - 1);
      ApplyInv(states[i - 1], acts[i - 1]);
    }
  }

  lemma ReachableInv(st: State)
    requires Reachable(st)
    ensures Inv(st)
  {
    var states, acts :| IsRun(states, acts) && st in states;
    var i :| 0 <= i < |states| && states[i] == st;
    RunInv(states, acts, i);
  }

  // ---------------------------------------------------------------------------
  // What every run guarantees

  /**
    Tasks come out in the order of their swaps, none lost, none twice, never the stub; what has not
    come out yet is in the chain, no node twice.
   */
  lemma OutInSwapOrder(st: State)
    requires Reachable(st)
    ensures st.out <= st.swaps && st.swaps[|st.out|..] == Tasks(st.chain)
    ensures Stub !in st.swaps && Distinct(st.chain)
  {
    var states, acts :| IsRun(states, acts) && st in states;
    var i :| 0 <= i < |states| && states[i] == st;
    RunInv(states, acts, i);
    NoStub(states, acts, i);
  }

  lemma {:induction false} NoStub(states: seq<State>, acts: seq<Action>, i: nat)
    requires IsRun(states, acts) && i < |states|
    ensures Stub !in states[i].swaps
  {
    if i > 0 {
      NoStub(states, acts, i - 1);
    }
  }

  /** The tasks given to MpscTqEnqueue, in the order of their swaps */
  function Enqueued(acts: seq<Action>): seq<Node> {
    if acts == [] then []
    else Enqueued(acts[..|acts| - 1]) + match acts[|acts| - 1] case Swap(_, t) => [t] case _ => []
  }

  /** The results of MpscTqDequeue other than NULL, in order */
  function Dequeued(states: seq<State>, acts: seq<Action>): seq<Node>
    requires |states| >= |acts|
    decreases |acts|
  {
    if acts == [] then []
    else Dequeued(states[..|acts| - 1], acts[..|acts| - 1]) + ResultOf(states[|acts| - 1], acts[|acts| - 1])
  }

  /** A call ends with its tail as the result, if that has a successor. */
  function ResultOf(st: State, a: Action): seq<Node> {
    if a.Dequeue? && st.pc.Finish? && st.pc.next.To? then [st.pc.tail] else []
  }

  lemma {:induction false} HistoryIsCalls(states: seq<State>, acts: seq<Action>, i: nat)
    requires IsRun(states, acts) && i < |states|
    ensures states[i].swaps == Enqueued(acts[..i]) && states[i].out == Dequeued(states[..i], acts[..i])
  {
    if i > 0 {
      HistoryIsCalls(states, acts, i - 1);
      assert acts[..i][..i - 1] == acts[..i - 1] && states[..i][..i - 1] == states[..i - 1];
      HistoryStep(states[i - 1], acts[i - 1]);
    }
  }

  lemma HistoryStep(st: State, a: Action)
    requires Enabled(st, a)
    ensures Apply(st, a).swaps == st.swaps + (match a case Swap(_, t) => [t] case _ => [])
    ensures Apply(st, a).out == st.out + ResultOf(st, a)
  {
  }

  /** In every run: the k-th dequeue that returns a task returns the k-th task enqueued, and the tasks enqueued after those are in the chain. */
  lemma DequeuesInOrder(states: seq<State>, acts: seq<Action>, i: nat)
    requires IsRun(states, acts) && i < |states|
    ensures Enqueued(acts[..i]) == Dequeued(states[..i], acts[..i]) + Tasks(states[i].chain)
  {
    HistoryIsCalls(states, acts, i);
    RunInv(states, acts, i);
  }

  /** Two neighbours of the chain are linked, or a thread between its swap and its link owes it. */
  lemma BrokenOnlyInFlight(st: State, i: nat)
    requires Reachable(st) && i + 1 < |st.chain|
    ensures Next(st.mem, st.chain[i]) == To(st.chain[i + 1]) <==> Owes(st.chain[i], st.chain[i + 1]) !in OwedLinks(st)
    ensures Next(st.mem, st.chain[i]) in {To(st.chain[i + 1]), Null}
    ensures st.flight == map[] && !st.pc.LinkStub? ==> Next(st.mem, st.chain[i]) == To(st.chain[i + 1])
  {
    ReachableInv(st);
    assert LinkedAt(st.chain, st.mem.next, OwedLinks(st), i);
  }

  /** No node, in particular not the stub, is ever the successor of two nodes. */
  lemma LinkedOnce(st: State, a: Node, b: Node)
    requires Reachable(st) && a in st.mem.next && b in st.mem.next && st.mem.next[a] == st.mem.next[b]
    ensures a == b
  {
    ReachableInv(st);
    LinkIsChain(st, a);
    LinkIsChain(st, b);
  }

  lemma LinkIsChain(st: State, a: Node)
    requires Inv(st) && a in st.mem.next
    ensures if a in st.chain then Neighbours(st.chain, Owes(a, st.mem.next[a])) else a == Stub && st.mem.next[a] == st.chain[0]
  {
    if a in st.chain {
      var i: nat :| i < |st.chain| && st.chain[i] == a;
      assert LinkedAt(st.chain, st.mem.next, OwedLinks(st), i);
      assert At(st.chain, Owes(a, st.mem.next[a]), i);
    }
  }

  /** The asserts on next pointers hold: of a task to be enqueued, and of the stub before the dequeuer inserts it. */
  lemma NextAsserts(st: State)
    requires Reachable(st)
    ensures forall t :: t != Stub && t !in st.chain ==> Next(st.mem, t) == Null
    ensures st.pc.SwapStub? ==> Next(st.mem, Stub) == Null
    ensures st.pc.SwapStub? ==> Stub !in st.chain
  {
    ReachableInv(st);
  }

  // ---------------------------------------------------------------------------
  // The dequeuer alone

  /** Steps left until the current call returns */
  function Rank(pc: Pc): nat {
    match pc
    case Idle => 0
    case Finish(_, _) => 1
    case Reread(_) => 2
    case LinkStub(_, _) => 3
    case SwapStub(_) => 4
    case CheckHead(_, _) => 5
    case SkipClear(_, _) => 2
    case SkipRead(_) => 3
  }

  /** The rest of a call that nobody interrupts */
  function Complete(st: State): State
    decreases Rank(st.pc)
  {
    if st.pc.Idle? then st else Complete(DequeueStep(st))
  }

  /** A whole call of MpscTqDequeue that nobody interrupts */
  function Call(st: State): State { Complete(Begin(st)) }

  lemma {:induction false} CompleteInv(st: State)
    requires Inv(st)
    ensures Inv(Complete(st)) && Complete(st).pc.Idle?
    decreases Rank(st.pc)
  {
    if !st.pc.Idle? {
      DequeueStepInv(st);
      CompleteInv(DequeueStep(st));
    }
  }

  /** Between calls of the dequeuer, with no enqueue in flight */
  ghost predicate Quiet(st: State) { Inv(st) && st.pc.Idle? && st.flight == map[] }

  /** What a lone call leaves in the queue */
  function ChainAfter(chain: seq<Node>): seq<Node>
    requires chain != []
  {
    if chain == [Stub] then [Stub]
    else if chain[0] != Stub then if |chain| == 1 then [Stub] else chain[1..]
    else if |chain| == 2 then chain[1..] else chain[2..]
  }

  /** A lone call returns NULL exactly when the queue has no task, or one task behind the stub. */
  predicate ReturnsNull(chain: seq<Node>) {
    chain == [Stub] || (|chain| == 2 && chain[0] == Stub)
  }

  lemma QuietLinks(st: State, i: nat)
    requires Quiet(st) && i < |st.chain|
    ensures Next(st.mem, st.chain[i]) == if i + 1 < |st.chain| then To(st.chain[i + 1]) else Null
  {
    assert OwedLinks(st) == {};
    if i + 1 < |st.chain| {
      assert LinkedAt(st.chain, st.mem.next, {}, i);
    }
  }

  lemma CallOnStub(st: State)
    requires Quiet(st) && st.chain[0] == Stub
    ensures Call(st).chain == ChainAfter(st.chain) && Call(st).flight == map[]
    ensures Call(st).out == st.out + if ReturnsNull(st.chain) then [] else [st.chain[1]]
  {
    QuietLinks(st, 0);
    if |st.chain| > 1 {
      QuietLinks(st, 1);
      var n := st.chain[1];
      assert n != Stub;
      SkipRest(Begin(st), n);
    }
  }

  lemma SkipRest(st: State, n: Node)
    requires st.pc == SkipRead(n) && n != Stub && st.chain != []
    ensures Complete(st).flight == st.flight
    ensures Complete(st).chain == if Next(st.mem, n) == Null then st.chain else st.chain[1..]
    ensures Complete(st).out == st.out + if Next(st.mem, n) == Null then [] else [n]
  {
    var st1 := DequeueStep(st);
    var st2 := DequeueStep(st1);
    assert st2.pc == Finish(n, Next(st.mem, n));
    FinishRest(st2);
    assert Complete(st) == Complete(st1) == Complete(st2);
  }

  lemma FinishRest(st: State)
    requires st.pc.Finish? && st.chain != []
    ensures Complete(st).flight == st.flight
    ensures Complete(st).chain == if st.pc.next == Null then st.chain else st.chain[1..]
    ensures Complete(st).out == st.out + if st.pc.next == Null then [] else [st.pc.tail]
  {
    assert Complete(st) == Complete(DequeueStep(st)) == DequeueStep(st);
  }

  lemma CallOnTask(st: State)
    requires Quiet(st) && st.chain[0] != Stub && |st.chain| > 1
    ensures Call(st).chain == st.chain[1..] && Call(st).flight == map[] && Call(st).out == st.out + [st.chain[0]]
  {
    QuietLinks(st, 0);
    var st1 := Begin(st);
    var st2 := DequeueStep(st1);
    assert st2.pc == Finish(st.chain[0], To(st.chain[1]));
    FinishRest(st2);
    assert Complete(st1) == Complete(st2);
  }

  lemma CallOnSingle(st: State)
    requires Quiet(st) && st.chain[0] != Stub && |st.chain| == 1
    ensures Call(st).chain == [Stub] && Call(st).flight == map[] && Call(st).out == st.out + [st.chain[0]]
  {
    var t := st.chain[0];
    var st1 := Begin(st);
    var st2 := DequeueStep(st1);
    assert st2.pc == SwapStub(t);
    var st3 := DequeueStep(st2);
    var st4 := DequeueStep(st3);
    var st5 := DequeueStep(st4);
    assert st5.pc == Finish(t, To(Stub)) && st5.chain == [t, Stub];
    FinishRest(st5);
    assert Complete(st1) == Complete(st2) == Complete(st3) == Complete(st4) == Complete(st5);
  }

  /** Tasks in a chain between calls */
  lemma OldestTask(st: State)
    requires Inv(st)
    ensures Tasks(st.chain) == [] <==> st.chain == [Stub]
    ensures st.chain[0] != Stub ==> Tasks(st.chain) == [st.chain[0]] + Tasks(st.chain[1..])
    ensures st.chain[0] == Stub ==> Tasks(st.chain) == Tasks(st.chain[1..])
    ensures st.chain[0] == Stub && |st.chain| > 1 ==> Tasks(st.chain) == [st.chain[1]] + Tasks(st.chain[2..])
  {
    if st.chain[0] == Stub && |st.chain| > 1 {
      assert st.chain[1] != Stub && st.chain[1..][1..] == st.chain[2..];
    }
  }

  /** A lone call: what it returns and leaves; NULL exactly when ReturnsNull says so. */
  lemma LoneCall(st: State)
    requires Quiet(st)
    ensures Quiet(Call(st)) && Call(st).chain == ChainAfter(st.chain) && Call(st).swaps == st.swaps
    ensures ReturnsNull(st.chain) ==> Call(st).out == st.out
    ensures !ReturnsNull(st.chain) ==> Tasks(st.chain) != [] && Call(st).out == st.out + [Tasks(st.chain)[0]]
  {
    BeginInv(st);
    CompleteInv(Begin(st));
    CompleteSwaps(Begin(st));
    OldestTask(st);
    if st.chain[0] == Stub {
      CallOnStub(st);
    } else if |st.chain| > 1 {
      CallOnTask(st);
    } else {
      CallOnSingle(st);
    }
  }

  lemma {:induction false} CompleteSwaps(st: State)
    ensures Complete(st).swaps == st.swaps
    decreases Rank(st.pc)
  {
    if !st.pc.Idle? {
      CompleteSwaps(DequeueStep(st));
    }
  }

  /** With no enqueue in flight, two calls suffice to get the oldest task of a non-empty queue. */
  lemma TwoCallsSuffice(st: State)
    requires Reachable(st) && st.pc.Idle? && st.flight == map[] && Tasks(st.chain) != []
    ensures var first := st.out + [Tasks(st.chain)[0]];
      Call(st).out == first || (Call(st).out == st.out && Call(Call(st)).out == first)
  {
    ReachableInv(st);
    OldestTask(st);
    LoneCall(st);
    LoneCall(Call(st));
    OldestTask(Call(st));
  }

  function Calls(st: State, n: nat): State
    decreases n
  {
    if n == 0 then st else Calls(Call(st), n - 1)
  }

  /** Calls that empty the queue: one for each task, and one more if the stub stands right before the last. */
  function CallsNeeded(chain: seq<Node>): nat {
    |Tasks(chain)| + if |chain| > 1 && chain[|chain| - 2] == Stub then 1 else 0
  }

  /** The number of tasks before and after a lone call */
  lemma TasksAfter(chain: seq<Node>)
    requires chain != [] && Distinct(chain)
    ensures Tasks([Stub]) == []
    ensures |chain| == 1 ==> |Tasks(chain)| == Bit(chain[0] != Stub)
    ensures chain[0] != Stub ==> |Tasks(chain)| == 1 + |Tasks(chain[1..])|
    ensures chain[0] == Stub ==> |Tasks(chain)| == |Tasks(chain[1..])|
    ensures chain[0] == Stub && |chain| > 1 ==> |Tasks(chain)| == 1 + |Tasks(chain[2..])|
  {
    if |chain| > 1 {
      assert chain[1] != chain[0] && chain[1..][1..] == chain[2..];
    }
  }

  function Bit(b: bool): nat { if b then 1 else 0 }

  lemma CallsNeededDrops(chain: seq<Node>)
    requires chain != [] && Distinct(chain)
    ensures CallsNeeded(ChainAfter(chain)) == if CallsNeeded(chain) == 0 then 0 else CallsNeeded(chain) - 1
  {
    TasksAfter(chain);
    if |chain| > 1 {
      TasksAfter(chain[1..]);
    }
    if |chain| > 2 && chain[0] == Stub {
      assert chain[|chain| - 2] != Stub;
    }
  }

  /** CallsNeeded calls return all the tasks in order, and no fewer do. */
  lemma {:induction false} Drain(st: State, n: nat)
    requires Quiet(st)
    ensures Calls(st, n).out == st.swaps <==> n >= CallsNeeded(st.chain)
    decreases n
  {
    if n == 0 {
      OldestTask(st);
    } else {
      LoneCall(st);
      CallsNeededDrops(st.chain);
      Drain(Call(st), n - 1);
    }
  }

  // ---------------------------------------------------------------------------
  // The queue as an object, used by one thread at a time

  /** The lone call after the stub was skipped. */
  lemma SkipPhase(st: State, n: Node)
    requires st.pc.Idle? && st.mem.tail == Stub && Next(st.mem, Stub) == To(n)
    ensures Call(st) == Complete(Skip(st, n))
  {
    var st1 := Begin(st);
    var st2 := DequeueStep(st1);
    var st3 := DequeueStep(st2);
    assert Complete(st1) == Complete(st2) == Complete(st3);
  }

  ghost function Skip(st: State, n: Node): State {
    var m := st.mem.(tail := n);
    st.(mem := Clear(m, Stub), pc := Finish(n, Next(m, n)), chain := if st.chain == [] then [] else st.chain[1..])
  }

  lemma HeadPhase(st: State)
    requires st.pc.Idle? && st.mem.tail != Stub
    ensures var t := st.mem.tail;
      Call(st) == if t == st.mem.head then Complete(WithStub(st)) else Complete(st.(pc := Finish(t, Next(st.mem, t))))
  {
    var st1 := Begin(st);
    var st2 := DequeueStep(st1);
    assert Complete(st1) == Complete(st2);
    if st.mem.tail == st.mem.head {
      var st3 := DequeueStep(st2);
      var st4 := DequeueStep(st3);
      var st5 := DequeueStep(st4);
      assert Complete(st2) == Complete(st3) == Complete(st4) == Complete(st5);
    }
  }

  ghost function WithStub(st: State): State {
    var m := Link(st.mem.(head := Stub), st.mem.head, Stub);
    st.(mem := m, pc := Finish(st.mem.tail, Next(m, st.mem.tail)), chain := st.chain + [Stub])
  }

  /** Links the head to n and makes n the head. */
  function Append(m: Memory, n: Node): Memory {
    Link(m.(head := n), m.head, n)
  }

  class TaskQueue {
    var head: Node
    var tail: Node
    var next: map<Node, Node>

    function Mem(): Memory
      reads this
    {
      Memory(head, tail, next)
    }

    constructor ()
      ensures Mem() == Init().mem && Quiet(Init())
    {
      head, tail, next := Stub, Stub, map[];
    }

    /** MpscTqEnqueue: the swap and the link */
    method Enqueue(t: Node)
      requires t !in next
      modifies this
      ensures Mem() == Append(old(Mem()), t)
    {
      var prev := head;
      head := t;
      next := next[prev := t];
    }

    /** MpscTqDequeue without interruption is Call; LoneCall says what that returns and leaves. */
    method Dequeue(ghost st: State) returns (r: Ptr)
      requires Mem() == st.mem && Quiet(st)
      modifies this
      ensures Mem() == Call(st).mem
      ensures Call(st).out == st.out + if r.To? then [r.node] else []
    {
      ghost var st' := st;
      var t := tail;
      var n := Next(Mem(), t);
      if t == Stub {
        if n.To? {
          st' := Skip(st, n.node);
          SkipPhase(st, n.node);
          tail := n.node;
          t := n.node;
          n := Next(Mem(), t);
          next := next - {Stub};
        }
      } else {
        HeadPhase(st);
        if t == head {
          st' := WithStub(st);
          OnlyNode(st);
          Enqueue(Stub);
          n := Next(Mem(), t);
        } else {
          st' := st.(pc := Finish(t, n));
        }
      }
      assert Mem() == st'.mem && Call(st) == Complete(st') && (st'.pc == Finish(t, n) || (st'.pc.Idle? && n == Null));
      FinishPhase(st');
      if n.To? {
        tail := n.node;
        next := next - {t};
        r := To(t);
      } else {
        r := Null;
      }
    }
  }

  lemma OnlyNode(st: State)
    requires Quiet(st) && st.mem.tail == st.mem.head && st.mem.tail != Stub
    ensures Stub !in st.mem.next
  {
    assert st.chain == [st.mem.tail];
  }

  lemma FinishPhase(st: State)
    requires st.pc.Finish? || st.pc.Idle?
    ensures st.pc.Idle? || st.pc.next == Null ==> Complete(st).mem == st.mem && Complete(st).out == st.out
    ensures st.pc.Finish? && st.pc.next.To? ==>
              Complete(st).mem == Clear(st.mem.(tail := st.pc.next.node), st.pc.tail)
              && Complete(st).out == st.out + [st.pc.tail]
  {
    if st.pc.Finish? {
      assert Complete(st) == Complete(DequeueStep(st)) == DequeueStep(st);
    }
  }

  /** An uninterrupted MpscTqEnqueue appends t to the chain. */
  lemma LoneEnqueue(st: State, e: Thread, t: Node)
    requires Quiet(st) && t != Stub && t !in st.chain
    ensures var st' := LinkStep(SwapHead(st, e, t), e);
      Quiet(st') && st'.mem == Append(st.mem, t) && st'.chain == st.chain + [t] && st'.swaps == st.swaps + [t]
  {
    SwapInv(st, e, t);
    LinkInv(SwapHead(st, e, t), e);
  }
}
