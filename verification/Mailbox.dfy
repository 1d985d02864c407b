/**
  Mailboxes (mailbox.c): a circular inbox and a pool of free nodes, each under its own lock. One
  step is one locked section; between its two sections a sender or receiver holds a node.
 */
module Mailbox {
  type Thread = nat

  /** Where a node is */
  datatype Place = Free | Inbox | Sender(e: Thread) | Receiver(e: Thread)

  /**
    `msg` gives the message in each node. `place`, `sent` and `got` (messages in the order of their
    insertion and removal) and `due` (what a receiver has to deliver) are history.
   */
  datatype Box<N, M> = Box(
    pool: seq<N>, inbox: seq<N>, msg: map<N, M>,
    sending: map<Thread, N>, receiving: map<Thread, N>,
    place: map<N, Place>, sent: seq<M>, got: seq<M>, due: map<Thread, M>)

  datatype Action<N, M> =
    | GetFree(e: Thread)                      // first section of a send: a node from the pool
    | Malloc(e: Thread, node: N, junk: M)     // first section of a send if the pool is empty
    | PutInbox(e: Thread, m: M)               // second section of a send
    | TakeInbox(e: Thread)                    // first section of a receive
    | PutFree(e: Thread)                      // second section of a receive

  function Empty<N, M>(): Box<N, M> { Box([], [], map[], map[], map[], map[], [], [], map[]) }

  /** A receiver waits while the inbox is empty. */
  predicate Enabled<N(==), M>(b: Box<N, M>, a: Action<N, M>) {
    match a
    case GetFree(e) => e !in b.sending && b.pool != []
    case Malloc(e, node, _) => e !in b.sending && b.pool == [] && node !in b.place
    case PutInbox(e, _) => e in b.sending
    case TakeInbox(e) => e !in b.receiving && b.inbox != [] && b.inbox[0] in b.msg
    case PutFree(e) => e in b.receiving
  }

  function Step<N, M>(b: Box<N, M>, a: Action<N, M>): Box<N, M>
    requires Enabled(b, a)
  {
    match a
    case GetFree(e) =>
      b.(pool := b.pool[1..], sending := b.sending[e := b.pool[0]], place := b.place[b.pool[0] := Sender(e)])
    case Malloc(e, node, junk) =>
      b.(sending := b.sending[e := node], place := b.place[node := Sender(e)], msg := b.msg[node := junk])
    case PutInbox(e, m) =>
      var n := b.sending[e];
      b.(sending := b.sending - {e}, inbox := b.inbox + [n], msg := b.msg[n := m],
         place := b.place[n := Inbox], sent := b.sent + [m])
    case TakeInbox(e) =>
      var n := b.inbox[0];
      b.(inbox := b.inbox[1..], receiving := b.receiving[e := n], place := b.place[n := Receiver(e)],
         got := b.got + [b.msg[n]], due := b.due[e := b.msg[n]])
    case PutFree(e) =>
      var n := b.receiving[e];
      b.(pool := [n] + b.pool, receiving := b.receiving - {e}, due := b.due - {e}, place := b.place[n := Free])
  }

  ghost predicate Distinct<N>(s: seq<N>) {
    forall i, j :: 0 <= i < j < |s| ==> s[i] != s[j]
  }

  /** The list s holds, once each, exactly the nodes whose place is p. */
  ghost predicate ListOk<N>(s: seq<N>, place: map<N, Place>, p: Place) {
    && Distinct(s)
    && (forall n :: n in s ==> n in place && place[n] == p)
    && (forall n :: n in place && place[n] == p ==> n in s)
  }

  /** A node in a hand is in one hand only. */
  ghost predicate HandsOk<N>(sending: map<Thread, N>, receiving: map<Thread, N>, place: map<N, Place>) {
    && (forall e :: e in sending ==> sending[e] in place && place[sending[e]] == Sender(e))
    && (forall e :: e in receiving ==> receiving[e] in place && place[receiving[e]] == Receiver(e))
    && (forall n :: n in place && place[n].Sender? ==> place[n].e in sending && sending[place[n].e] == n)
    && (forall n :: n in place && place[n].Receiver? ==> place[n].e in receiving && receiving[place[n].e] == n)
  }

  /** Every node ever allocated is in exactly one list or in exactly one hand. */
  ghost predicate Partition<N, M>(b: Box<N, M>) {
    ListOk(b.pool, b.place, Free) && ListOk(b.inbox, b.place, Inbox) && HandsOk(b.sending, b.receiving, b.place)
  }

  function Contents<N, M>(inbox: seq<N>, msg: map<N, M>): seq<M>
    requires forall i :: 0 <= i < |inbox| ==> inbox[i] in msg
  {
    seq(|inbox|, i requires 0 <= i < |inbox| => msg[inbox[i]])
  }

  /** What was sent is what was received and then what waits, in order; a held message does not change. */
  ghost predicate Order<N, M>(b: Box<N, M>) {
    && b.msg.Keys == b.place.Keys
    && (forall i :: 0 <= i < |b.inbox| ==> b.inbox[i] in b.msg)
    && b.sent == b.got + Contents(b.inbox, b.msg)
    && DueOk(b.receiving, b.due, b.msg)
  }

  ghost predicate DueOk<N, M>(receiving: map<Thread, N>, due: map<Thread, M>, msg: map<N, M>) {
    && due.Keys == receiving.Keys
    && (forall e :: e in receiving ==> receiving[e] in msg && msg[receiving[e]] == due[e])
  }

  ghost predicate Inv<N, M>(b: Box<N, M>) { Partition(b) && Order(b) }

  // Moving a node

  lemma ListFrame<N>(s: seq<N>, place: map<N, Place>, p: Place, n: N, q: Place)
    requires ListOk(s, place, p) && q != p && n !in s
    ensures ListOk(s, place[n := q], p)
  {
  }

  lemma ListAdd<N>(s: seq<N>, place: map<N, Place>, p: Place, n: N)
    requires ListOk(s, place, p) && n !in s
    ensures ListOk(s + [n], place[n := p], p) && ListOk([n] + s, place[n := p], p)
  {
  }

  lemma ListTake<N>(s: seq<N>, place: map<N, Place>, p: Place, q: Place)
    requires ListOk(s, place, p) && s != [] && q != p
    ensures s[0] in place && place[s[0]] == p && ListOk(s[1..], place[s[0] := q], p)
  {
    assert s == [s[0]] + s[1..];
  }

  lemma GetFreeInv<N, M>(b: Box<N, M>, e: Thread)
    requires Inv(b) && Enabled(b, GetFree(e))
    ensures Inv(Step(b, GetFree(e)))
  {
    ListTake(b.pool, b.place, Free, Sender(e));
    ListFrame(b.inbox, b.place, Inbox, b.pool[0], Sender(e));
    assert Partition(Step(b, GetFree(e)));
  }

  lemma MallocInv<N, M>(b: Box<N, M>, e: Thread, node: N, junk: M)
    requires Inv(b) && Enabled(b, Malloc(e, node, junk))
    ensures Inv(Step(b, Malloc(e, node, junk)))
  {
    ListFrame(b.pool, b.place, Free, node, Sender(e));
    ListFrame(b.inbox, b.place, Inbox, node, Sender(e));
    var b' := Step(b, Malloc(e, node, junk));
    assert Contents(b'.inbox, b'.msg) == Contents(b.inbox, b.msg);
  }

  lemma PutInboxPartition<N, M>(b: Box<N, M>, e: Thread, m: M)
    requires Partition(b) && Enabled(b, PutInbox(e, m))
    ensures Partition(Step(b, PutInbox(e, m)))
  {
    var n := b.sending[e];
    ListFrame(b.pool, b.place, Free, n, Inbox);
    ListAdd(b.inbox, b.place, Inbox, n);
  }

  lemma PutInboxInv<N, M>(b: Box<N, M>, e: Thread, m: M)
    requires Inv(b) && Enabled(b, PutInbox(e, m))
    ensures Inv(Step(b, PutInbox(e, m)))
  {
    PutInboxPartition(b, e, m);
    var b' := Step(b, PutInbox(e, m));
    assert b.sending[e] !in b.inbox;
    assert Contents(b'.inbox, b'.msg) == Contents(b.inbox, b.msg) + [m];
  }

  lemma TakeInboxPartition<N, M>(b: Box<N, M>, e: Thread)
    requires Partition(b) && Enabled(b, TakeInbox(e))
    ensures Partition(Step(b, TakeInbox(e)))
  {
    var n := b.inbox[0];
    ListTake(b.inbox, b.place, Inbox, Receiver(e));
    ListFrame(b.pool, b.place, Free, n, Receiver(e));
  }

  lemma ContentsTail<N, M>(inbox: seq<N>, msg: map<N, M>)
    requires inbox != [] && forall i :: 0 <= i < |inbox| ==> inbox[i] in msg
    ensures Contents(inbox, msg) == [msg[inbox[0]]] + Contents(inbox[1..], msg)
  {
  }

  lemma TakeInboxOrder<N, M>(b: Box<N, M>, e: Thread)
    requires Order(b) && Enabled(b, TakeInbox(e)) && b.inbox[0] in b.place
    ensures Order(Step(b, TakeInbox(e)))
  {
    ContentsTail(b.inbox, b.msg);
    var rest, m := b.inbox[1..], b.msg[b.inbox[0]];
    assert b.got + ([m] + Contents(rest, b.msg)) == (b.got + [m]) + Contents(rest, b.msg);
  }

  lemma TakeInboxInv<N, M>(b: Box<N, M>, e: Thread)
    requires Inv(b) && Enabled(b, TakeInbox(e))
    ensures Inv(Step(b, TakeInbox(e)))
  {
    TakeInboxPartition(b, e);
    TakeInboxOrder(b, e);
  }

  lemma PutFreeInv<N, M>(b: Box<N, M>, e: Thread)
    requires Inv(b) && Enabled(b, PutFree(e))
    ensures Inv(Step(b, PutFree(e)))
  {
    var n := b.receiving[e];
    ListFrame(b.inbox, b.place, Inbox, n, Free);
    ListAdd(b.pool, b.place, Free, n);
  }

  lemma StepInv<N, M>(b: Box<N, M>, a: Action<N, M>)
    requires Inv(b) && Enabled(b, a)
    ensures Inv(Step(b, a))
  {
    match a
    case GetFree(e) => GetFreeInv(b, e);
    case Malloc(e, node, junk) => MallocInv(b, e, node, junk);
    case PutInbox(e, m) => PutInboxInv(b, e, m);
    case TakeInbox(e) => TakeInboxInv(b, e);
    case PutFree(e) => PutFreeInv(b, e);
  }

  ghost predicate IsRun<N, M>(boxes: seq<Box<N, M>>, acts: seq<Action<N, M>>) {
    && |boxes| == |acts| + 1 && boxes[0] == Empty()
    && forall i :: 0 <= i < |acts| ==> Enabled(boxes[i], acts[i]) && boxes[i + 1] == Step(boxes[i], acts[i])
  }

  lemma {:induction false} RunInv<N, M>(boxes: seq<Box<N, M>>, acts: seq<Action<N, M>>, i: nat)
    requires IsRun(boxes, acts) && i < |boxes|
    ensures Inv(boxes[i])
  {
    if i > 0 {
      RunInv(boxes, acts, i - 1);
      StepInv(boxes[i - 1], acts[i - 1]);
    }
  }

  /** Messages are received in the order they were sent, and a receiver delivers the message it took. */
  lemma ReceivedInSendOrder<N, M>(boxes: seq<Box<N, M>>, acts: seq<Action<N, M>>, i: nat)
    requires IsRun(boxes, acts) && i < |boxes|
    ensures boxes[i].got <= boxes[i].sent
    ensures |boxes[i].sent| == |boxes[i].got| + |boxes[i].inbox|
    ensures forall e :: e in boxes[i].receiving ==>
              e in boxes[i].due && boxes[i].receiving[e] in boxes[i].msg && boxes[i].msg[boxes[i].receiving[e]] == boxes[i].due[e]
  {
    RunInv(boxes, acts, i);
  }

  /** Inbox, pool and the held nodes are disjoint, and together they are all nodes ever allocated. */
  lemma NodesPartitioned<N, M>(boxes: seq<Box<N, M>>, acts: seq<Action<N, M>>, i: nat, n: N)
    requires IsRun(boxes, acts) && i < |boxes|
    ensures var b := boxes[i];
      && Distinct(b.pool) && Distinct(b.inbox)
      && (n in b.place.Keys <==> n in b.pool || n in b.inbox || n in b.sending.Values || n in b.receiving.Values)
      && !(n in b.pool && n in b.inbox) && !(n in b.sending.Values && n in b.receiving.Values)
      && !((n in b.pool || n in b.inbox) && (n in b.sending.Values || n in b.receiving.Values))
      && (forall e, f :: e in b.sending && f in b.sending && b.sending[e] == b.sending[f] ==> e == f)
      && (forall e, f :: e in b.receiving && f in b.receiving && b.receiving[e] == b.receiving[f] ==> e == f)
  {
    RunInv(boxes, acts, i);
  }

  /**
    The sections of a send give e a node and put it, with the message, at the end of the inbox; those of
    a receive take the first node out of the inbox and give it back to the pool.
   */
  lemma SectionLaw<N, M>(b: Box<N, M>, a: Action<N, M>)
    requires Inv(b) && Enabled(b, a)
    ensures var b' := Step(b, a);
      match a
      case GetFree(e) => e in b'.sending && b.pool == [b'.sending[e]] + b'.pool && b'.inbox == b.inbox
      case Malloc(e, node, _) => e in b'.sending && b'.sending[e] == node && b'.pool == b.pool && b'.inbox == b.inbox
      case PutInbox(e, m) =>
        && e !in b'.sending && b'.pool == b.pool && b'.inbox == b.inbox + [b.sending[e]]
        && b.sending[e] in b'.msg && b'.msg[b.sending[e]] == m
      case TakeInbox(e) => e in b'.receiving && b.inbox == [b'.receiving[e]] + b'.inbox && b'.pool == b.pool && b'.msg == b.msg
      case PutFree(e) => e !in b'.receiving && b'.pool == [b.receiving[e]] + b.pool && b'.inbox == b.inbox
  {
  }

  // The same, told from the actions alone

  /** The messages given to LpelMailboxSend, in the order of their insertion */
  function Sends<N, M>(acts: seq<Action<N, M>>): seq<M> {
    if acts == [] then []
    else Sends(acts[..|acts| - 1]) + match acts[|acts| - 1] case PutInbox(_, m) => [m] case _ => []
  }

  /** The receives that have taken a node */
  function Takes<N, M>(acts: seq<Action<N, M>>): nat {
    if acts == [] then 0 else Takes(acts[..|acts| - 1]) + if acts[|acts| - 1].TakeInbox? then 1 else 0
  }

  lemma {:induction false} HistoryIsActions<N, M>(boxes: seq<Box<N, M>>, acts: seq<Action<N, M>>, i: nat)
    requires IsRun(boxes, acts) && i < |boxes|
    ensures boxes[i].sent == Sends(acts[..i]) && |boxes[i].got| == Takes(acts[..i])
  {
    if i > 0 {
      HistoryIsActions(boxes, acts, i - 1);
      assert acts[..i][..i - 1] == acts[..i - 1] && acts[..i][i - 1] == acts[i - 1];
      assert boxes[i] == Step(boxes[i - 1], acts[i - 1]);
    }
  }

  /** After i actions e is in the receive whose node it took with action j. */
  ghost predicate InReceive<N, M>(acts: seq<Action<N, M>>, e: Thread, j: nat, i: nat) {
    j < i <= |acts| && acts[j] == TakeInbox(e) && forall m :: j < m < i ==> acts[m] != PutFree(e)
  }

  /** The message e has to deliver is the k-th received. */
  ghost predicate Owes<N, M>(b: Box<N, M>, e: Thread, k: nat) { e in b.due && k < |b.got| && b.due[e] == b.got[k] }

  lemma DueTaken<N, M>(boxes: seq<Box<N, M>>, acts: seq<Action<N, M>>, e: Thread, j: nat)
    requires IsRun(boxes, acts) && j < |acts| && acts[j] == TakeInbox(e)
    ensures Owes(boxes[j + 1], e, |boxes[j].got|)
  {
  }

  lemma DueStep<N, M>(boxes: seq<Box<N, M>>, acts: seq<Action<N, M>>, e: Thread, i: nat, k: nat)
    requires IsRun(boxes, acts) && i < |acts| && acts[i] != PutFree(e) && Owes(boxes[i], e, k)
    ensures Owes(boxes[i + 1], e, k)
  {
    RunInv(boxes, acts, i);
  }

  lemma {:induction false} DueStays<N, M>(boxes: seq<Box<N, M>>, acts: seq<Action<N, M>>, e: Thread, j: nat, i: nat)
    requires IsRun(boxes, acts) && InReceive(acts, e, j, i)
    ensures Owes(boxes[i], e, |boxes[j].got|)
    decreases i
  {
    if i == j + 1 {
      DueTaken(boxes, acts, e, j);
    } else {
      DueStays(boxes, acts, e, j, i - 1);
      DueStep(boxes, acts, e, i - 1, |boxes[j].got|);
    }
  }

  /** The receive that takes the k-th node delivers the k-th message sent, however long it holds the node. */
  lemma DeliversInOrder<N, M>(boxes: seq<Box<N, M>>, acts: seq<Action<N, M>>, e: Thread, j: nat, i: nat)
    requires IsRun(boxes, acts) && InReceive(acts, e, j, i)
    ensures var b, k := boxes[i], Takes(acts[..j]);
      && e in b.receiving && b.receiving[e] in b.msg && k < |Sends(acts[..i])|
      && b.msg[b.receiving[e]] == Sends(acts[..i])[k]
  {
    HistoryIsActions(boxes, acts, i);
    HistoryIsActions(boxes, acts, j);
    DueStays(boxes, acts, e, j, i);
    RunInv(boxes, acts, i);
  }

  // ---------------------------------------------------------------------------
  // The mailbox as an object

  class Node<M> {
    var next: Node?<M>
    var msg: M

    constructor (m: M)
      ensures msg == m
    {
      next, msg := null, m;
    }
  }

  function Succ(i: nat, n: nat): nat { if i + 1 == n then 0 else i + 1 }

  /** A list that ends with NULL */
  ghost predicate Chain<M>(s: seq<Node<M>>, first: Node?<M>)
    reads s
  {
    && (first == NodeAt(s, 0))
    && forall i :: 0 <= i < |s| ==> s[i].next == NodeAt(s, i + 1)
  }

  ghost function NodeAt<M>(s: seq<Node<M>>, i: nat): Node?<M> { if i < |s| then s[i] else null }

  /** A circular list with a handle to its last node */
  ghost predicate Ring<M>(s: seq<Node<M>>, last: Node?<M>)
    reads s
  {
    && (if s == [] then last == null else last == s[|s| - 1])
    && forall i: nat :: i < |s| ==> RingAt(s, i)
  }

  ghost predicate RingAt<M>(s: seq<Node<M>>, i: nat)
    requires i < |s|
    reads s
  {
    s[i].next == s[Succ(i, |s|)]
  }

  lemma TailDistinct<T>(s: seq<T>)
    requires Distinct(s) && s != []
    ensures [s[0]] + s[1..] == s && s[0] !in s[1..] && Distinct(s[1..])
  {
  }

  /** Node j of a ring without its first one, and its successor */
  lemma TailSucc<T>(s: seq<T>, j: nat)
    requires j + 1 < |s|
    ensures s[1..][j] == s[j + 1]
    ensures s[1..][Succ(j, |s| - 1)] == if j + 2 == |s| then s[1] else s[Succ(j + 1, |s|)]
  {
  }

  /** Its methods are the locked sections; `pool` and `inbox` are those of a Box. */
  class MailboxObject<M> {
    var listFree: Node?<M>
    var listInbox: Node?<M>
    ghost var pool: seq<Node<M>>
    ghost var inbox: seq<Node<M>>

    ghost predicate Valid()
      reads this, pool, inbox
    {
      && Distinct(pool) && Distinct(inbox) && (forall n :: n in pool ==> n !in inbox)
      && Chain(pool, listFree) && Ring(inbox, listInbox)
    }

    /** The messages that wait, oldest first */
    ghost function Messages(): seq<M>
      reads this, inbox
    {
      seq(|inbox|, i requires 0 <= i < |inbox| reads this, inbox => inbox[i].msg)
    }

    constructor ()
      ensures Valid() && pool == [] && inbox == []
    {
      listFree, listInbox, pool, inbox := null, null, [], [];
    }

    /** GetFree: a node from the pool, or a new one */
    method GetFreeNode(junk: M) returns (node: Node<M>)
      requires Valid()
      modifies this
      ensures Valid() && inbox == old(inbox) && node !in pool && node !in inbox
      ensures old(pool) == [] ==> pool == [] && fresh(node)
      ensures old(pool) != [] ==> [node] + pool == old(pool)
    {
      if listFree != null {
        node := listFree;
        assert pool == [node] + pool[1..];
        listFree := node.next;
        assert forall i :: 0 <= i < |pool| - 1 ==> pool[1..][i] == pool[i + 1];
        pool := pool[1..];
      } else {
        node := new Node(junk);
      }
    }

    /** The locked section of LpelMailboxSend, with the message copied into the node before it */
    method Insert(node: Node<M>, m: M)
      requires Valid() && node !in pool && node !in inbox
      modifies this, node, listInbox
      ensures Valid() && pool == old(pool) && inbox == old(inbox) + [node] && node.msg == m
      ensures listInbox != null && (old(listInbox) != null ==> old(listInbox).msg == old(listInbox.msg))
    {
      node.msg := m;
      if listInbox == null {
        listInbox := node;
        node.next := node;
      } else {
        ghost var s, n := inbox, |inbox|;
        assert listInbox == s[n - 1] && listInbox in s && RingAt(s, n - 1);
        node.next := listInbox.next;
        listInbox.next := node;
        listInbox := node;
      }
      ghost var s, n := inbox, |inbox|;
      inbox := inbox + [node];
      forall j: nat | j < |inbox| ensures RingAt(inbox, j) {
        assert j < n - 1 ==> old(RingAt(s, j));
      }
    }

    /** The locked section of LpelMailboxRecv once the inbox is not empty */
    method Extract() returns (node: Node<M>)
      requires Valid() && inbox != []
      modifies this, listInbox
      ensures Valid() && pool == old(pool) && [node] + inbox == old(inbox) && node !in inbox && node !in pool
      ensures forall n :: n in old(inbox) ==> n.msg == old(n.msg)
    {
      ghost var s, n := inbox, |inbox|;
      assert listInbox == s[n - 1] && listInbox in s && RingAt(s, n - 1);
      node := listInbox.next;
      TailDistinct(s);
      if node == listInbox {
        listInbox := null;
      } else {
        assert RingAt(s, 0);
        listInbox.next := node.next;
      }
      inbox := s[1..];
      forall j: nat | j < |inbox| ensures RingAt(inbox, j) {
        assert j + 2 < n ==> old(RingAt(s, j + 1));
        TailSucc(s, j);
      }
    }

    /** PutFree */
    method GiveBack(node: Node<M>)
      requires Valid() && node !in pool && node !in inbox
      modifies this, node
      ensures Valid() && pool == [node] + old(pool) && inbox == old(inbox) && node.msg == old(node.msg)
      ensures Messages() == old(Messages())
    {
      node.next := listFree;
      listFree := node;
      pool := [node] + pool;
    }

    /** LpelMailboxSend without interruption */
    method Send(m: M)
      requires Valid()
      modifies this, listInbox, listFree
      ensures Valid() && Messages() == old(Messages()) + [m]
    {
      var node := GetFreeNode(m);
      Insert(node, m);
    }

    /** LpelMailboxRecv without interruption, on a non-empty mailbox */
    method Receive() returns (m: M)
      requires Valid() && inbox != []
      modifies this, inbox
      ensures Valid() && old(Messages()) == [m] + Messages()
    {
      ghost var was, messages := inbox, Messages();
      var node := Extract();
      assert was[0] == node && was[1..] == inbox;
      m := node.msg;
      assert messages == [m] + Messages();
      GiveBack(node);
    }

    /** LpelMailboxHasIncoming */
    method HasIncoming() returns (r: bool)
      requires Valid()
      ensures r <==> Messages() != []
    {
      r := listInbox != null;
    }
  }
}
