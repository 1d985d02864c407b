/**
  What the stream protocol of module StreamNet guarantees in every run, and where LpelStreamTryWrite
  falls short.
 */
module StreamGuarantees {
  import opened Ring
  import opened StreamNet

  /**
    Items come out in the order they went in, none lost or duplicated, the counters never drop
    below -1, and no assert on space or on a non-NULL item can fail.
   */
  lemma StreamSafety(net: Net, s: StreamId)
    requires Reachable(net) && s < |net.streams|
    ensures var x := net.streams[s];
      && x.prod < |net.tasks| && x.cons < |net.tasks|
      && x.rcvd <= x.sent
      && Holds(x.ring, x.sent[|x.rcvd|..])
      && -1 <= x.nSem <= |x.ring.data|
      && -1 <= x.eSem <= |x.ring.data|
      && (net.tasks[x.prod].pc.WPut? && net.tasks[x.prod].pc.s == s ==> IsSpace(x.ring))
      && (net.tasks[x.cons].pc.RTop? && net.tasks[x.cons].pc.s == s ==>
            |x.rcvd| < |x.sent| && Top(x.ring) == x.sent[|x.rcvd|] != NULL)
  {
    ReachableInv(net);
    StreamAt(net, s);
    var x := net.streams[s];
    IsSpaceIffNotFull(x.ring, Queue(x));
    TopIsOldest(x.ring, Queue(x));
  }

  /** LpelStreamRead returns the oldest item not read before it. */
  lemma ReadReturnsOldest(net: Net, t: TaskId)
    requires Reachable(net) && t < |net.tasks|
    requires net.tasks[t].pc.RRaise? || net.tasks[t].pc.RUnblock?
    ensures var pc := net.tasks[t].pc;
      && pc.s < |net.streams|
      && var x := net.streams[pc.s];
      && x.cons == t
      && 0 < |x.rcvd| <= |x.sent|
      && pc.item == x.sent[|x.rcvd| - 1] != NULL
  {
    ReachableInv(net);
    TaskAt(net, t);
    var x := net.streams[net.tasks[t].pc.s];
    StreamAt(net, net.tasks[t].pc.s);
    assert x.sent[|x.rcvd| - 1] in x.sent;
  }

  /**
    No wakeup is lost: a blocked reader has a wakeup in flight, or its producer is about to send
    it, or n_sem is -1 and no item has been delivered that it could miss.
    No wakeup is doubled: the three cases exclude each other.
   */
  lemma ReaderWakeup(net: Net, s: StreamId)
    requires Reachable(net) && WellFormed(net) && s < |net.streams|
    requires net.tasks[net.streams[s].cons].pc == RBlocked(s)
    ensures var x := net.streams[s];
      var c, p := net.tasks[x.cons], net.tasks[x.prod];
      || (c.wakes == 1 && p.pc != WUnblock(s) && x.nSem >= 0 && x.rcvd < x.sent)
      || (c.wakes == 0 && p.pc == WUnblock(s) && x.nSem >= 0 && x.rcvd < x.sent)
      || (c.wakes == 0 && p.pc != WUnblock(s) && x.nSem == -1
          && |x.sent| - |x.rcvd| == Bit(p.pc.WRaise? && p.pc.s == s))
  {
    ReachableInv(net);
    StreamAt(net, s);
    TaskAt(net, net.streams[s].cons);
    TaskAt(net, net.streams[s].prod);
  }

  /** The same for a blocked writer: it sleeps only while every free slot has been claimed. */
  lemma WriterWakeup(net: Net, s: StreamId)
    requires Reachable(net) && WellFormed(net) && s < |net.streams|
    requires net.tasks[net.streams[s].prod].pc.WBlocked? && net.tasks[net.streams[s].prod].pc.s == s
    ensures var x := net.streams[s];
      var c, p := net.tasks[x.cons], net.tasks[x.prod];
      var waking := c.pc.RUnblock? && c.pc.s == s;
      var filled := |x.sent| - |x.rcvd|;
      || (p.wakes == 1 && !waking && x.eSem >= 0 && filled < |x.ring.data|)
      || (p.wakes == 0 && waking && x.eSem >= 0 && filled < |x.ring.data|)
      || (p.wakes == 0 && !waking && x.eSem == -1 && filled == |x.ring.data| - Bit(c.pc.RRaise? && c.pc.s == s))
  {
    ReachableInv(net);
    StreamAt(net, s);
    TaskAt(net, net.streams[s].cons);
    TaskAt(net, net.streams[s].prod);
  }

  /** The two ends of a stream are never asleep together. */
  lemma NotBothAsleep(net: Net, s: StreamId)
    requires Reachable(net) && WellFormed(net) && s < |net.streams|
    ensures !(ReaderAsleep(s, net.tasks[net.streams[s].prod], net.tasks[net.streams[s].cons])
              && WriterAsleep(s, net.tasks[net.streams[s].prod], net.tasks[net.streams[s].cons]))
  {
    ReachableInv(net);
    StreamAt(net, s);
  }

  /** The V of a writer whose reader is asleep ends in exactly one unblock of that reader. */
  lemma RaiseWakesReader(net: Net, t: TaskId)
    requires Reachable(net) && t < |net.tasks| && net.tasks[t].pc.WRaise?
    requires WellFormed(net)
    requires var s := net.tasks[t].pc.s;
      s < |net.streams| && net.streams[s].prod == t
      && ReaderAsleep(s, net.tasks[t], net.tasks[net.streams[s].cons])
    ensures var s := net.tasks[t].pc.s;
      var c := net.streams[s].cons;
      var net1 := Proceed(net, t);
      && net1.tasks[t].pc == WUnblock(s)
      && net1.tasks[c] == net.tasks[c]
      && WellFormed(net1)
      && Proceed(net1, t).tasks[c].wakes == 1
      && Proceed(net1, t).tasks[t].pc == Running
  {
    ReachableInv(net);
    var s := net.tasks[t].pc.s;
    StreamAt(net, s);
    TaskAt(net, t);
    ProceedInv(net, t);
    InvImpliesWellFormed(Proceed(net, t));
  }

  /** At any time at most one wakeup of a task is in flight or decided, and then the task waits for it. */
  lemma AtMostOneWakeup(net: Net, t: TaskId)
    requires Reachable(net) && WellFormed(net) && t < |net.tasks|
    ensures net.tasks[t].wakes <= 1
    ensures net.tasks[t].wakes == 1 ==> forall u :: 0 <= u < |net.tasks| ==> !Owes(net, u, t)
    ensures forall u, v :: 0 <= u < |net.tasks| && 0 <= v < |net.tasks| && Owes(net, u, t) && Owes(net, v, t) ==> u == v
    ensures net.tasks[t].wakes == 1 || (exists u :: 0 <= u < |net.tasks| && Owes(net, u, t)) ==>
              IsBlocked(net.tasks[t].pc) || net.tasks[t].pc.PRegister?
  {
    ReachableInv(net);
    TaskAt(net, t);
    if net.tasks[t].wakes == 1 {
      NoDebtor(net, t);
    }
    forall u | 0 <= u < |net.tasks| && Owes(net, u, t)
      ensures Waits(net.tasks[t])
      ensures forall v :: 0 <= v < |net.tasks| && Owes(net, v, t) ==> v == u
    {
      TaskAt(net, u);
      OneDebtor(net, u, t);
    }
  }

  /**
    LpelStreamPoll returns a descriptor of the polled set whose buffer is not empty, with no poll
    flag left behind. On the slow path exactly one party took the token: the poller itself, and
    then it never slept, or the producer of the returned stream, and then it consumed exactly one
    wakeup. None is left in flight.
   */
  lemma PollReturn(net: Net, t: TaskId)
    requires Reachable(net) && WellFormed(net) && t < |net.tasks| && net.tasks[t].pc.PReturn?
    ensures var x := net.tasks[t];
      && x.pc.sd in x.pc.order && x.pc.sd < |net.streams|
      && Top(net.streams[x.pc.sd].ring) != NULL
      && (forall s :: 0 <= s < |net.streams| && net.streams[s].cons == t ==> !net.streams[s].isPoll)
      && !x.token && x.wakes == 0
      && (forall u :: 0 <= u < |net.tasks| ==> !Owes(net, u, t))
      && (!x.pc.fast ==>
            || (x.takers == [Poller] && x.resumes == 0)
            || (x.takers == [Producer(x.pc.sd)] && x.resumes == 1))
  {
    ReachableInv(net);
    TaskAt(net, t);
    StreamAt(net, net.tasks[t].pc.sd);
    TopIsOldest(net.streams[net.tasks[t].pc.sd].ring, Queue(net.streams[net.tasks[t].pc.sd]));
    NoDebtor(net, t);
    forall s | 0 <= s < |net.streams| && net.streams[s].cons == t
      ensures !net.streams[s].isPoll
    {
      StreamAt(net, s);
    }
  }

  /**
    A sleeping poller misses nothing: a wakeup is in flight, or the producer that took its token
    will send one, or the token is still there and every polled stream is empty and flagged.
   */
  lemma PollSleep(net: Net, t: TaskId)
    requires Reachable(net) && WellFormed(net) && t < |net.tasks| && net.tasks[t].pc.PBlocked?
    ensures var x := net.tasks[t];
      || (x.wakes == 1 && x.wakeupSd in x.pc.order && NonEmpty(net, x.wakeupSd))
      || (x.wakes == 0 && exists s: StreamId :: s in x.pc.order && OwesPollWakeup(net, s) && NonEmpty(net, s))
      || (x.wakes == 0 && x.token && forall j :: 0 <= j < |x.pc.order| ==>
            x.pc.order[j] < |net.streams| && net.streams[x.pc.order[j]].isPoll
            && Top(net.streams[x.pc.order[j]].ring) == NULL)
  {
    ReachableInv(net);
    TaskAt(net, t);
    var x := net.tasks[t];
    if x.token {
      assert Registered(x.pc) == x.pc.order;
      forall j | 0 <= j < |x.pc.order|
        ensures net.streams[x.pc.order[j]].isPoll && Top(net.streams[x.pc.order[j]].ring) == NULL
      {
        var s := Registered(x.pc)[j];
        StreamAt(net, s);
        TopIsOldest(net.streams[s].ring, Queue(net.streams[s]));
      }
    }
  }

  /** When a poll goes on to unregister, its token is gone, as the code asserts. */
  lemma TokenGone(net: Net, t: TaskId)
    requires Reachable(net) && WellFormed(net) && t < |net.tasks|
    ensures net.tasks[t].pc.PCheck? || net.tasks[t].pc.PUnregister? ==> !net.tasks[t].token
    ensures net.tasks[t].pc.PCheck? ==> |net.tasks[t].takers| == 1
  {
    ReachableInv(net);
    TaskAt(net, t);
  }

  /** A producer that took a poll token always finds n_sem at 0 or above, so its wakeup is never dropped. */
  lemma PollWakeupNotDropped(net: Net, t: TaskId)
    requires Reachable(net) && WellFormed(net) && t < |net.tasks| && net.tasks[t].pc.WRaise? && net.tasks[t].pc.pollWakeup
    ensures Proceed(net, t).tasks[t].pc == WSetSd(net.tasks[t].pc.s)
  {
    ReachableInv(net);
    TaskAt(net, t);
    StreamAt(net, net.tasks[t].pc.s);
  }

  /** A new stream is empty, has the size asked for, or 16 if that is 0, and every slot may be claimed. */
  lemma CreateLaw(size: nat, prod: TaskId, cons: TaskId)
    requires size < UINT_RANGE
    ensures var x := Create(size, prod, cons);
      && |x.ring.data| == (if size == 0 then 16 else size) && Holds(x.ring, [])
      && x.nSem == 0 && x.eSem == |x.ring.data| && !x.isPoll
  {
    EmptyHolds(if size == 0 then DEFAULT_SIZE else size);
  }

  /**
    A put clears is_poll, and takes the consumer's token exactly if is_poll was set; the writer will wake
    a poller exactly if it got a token that was there.
   */
  lemma PutTakesToken(net: Net, t: TaskId)
    requires Reachable(net) && Enabled(net, Continue(t)) && net.tasks[t].pc.WPut? && WellFormed(net)
    ensures var net', s := Apply(net, Continue(t)), net.tasks[t].pc.s;
      && s < |net.streams| == |net'.streams| && |net'.tasks| == |net.tasks|
      && var x := net.streams[s];
      && x.cons < |net.tasks| && !net'.streams[s].isPoll
      && net'.tasks[t].pc == WRaise(s, x.isPoll && net.tasks[x.cons].token)
      && (net'.tasks[x.cons].token <==> net.tasks[x.cons].token && !x.isPoll)
  {
    ReachableInv(net);
    TaskAt(net, t);
    StreamAt(net, net.tasks[t].pc.s);
  }

  /**
    A write suspends its caller exactly when every slot is filled, counting one the reader has emptied
    but not yet announced; a read exactly when no item is left but one the writer has not yet announced.
   */
  lemma BlocksIff(net: Net, t: TaskId, s: StreamId, item: Pointer)
    requires Reachable(net) && WellFormed(net) && s < |net.streams|
    ensures var x := net.streams[s]; var filled := |x.sent| - |x.rcvd|;
      && x.prod < |net.tasks| && x.cons < |net.tasks|
      && (Enabled(net, BeginWrite(t, s, item)) ==>
            (Apply(net, BeginWrite(t, s, item)).tasks[t].pc.WBlocked? <==>
               filled == |x.ring.data| - Bit(net.tasks[x.cons].pc.RRaise? && net.tasks[x.cons].pc.s == s)))
      && (Enabled(net, BeginRead(t, s)) ==>
            (Apply(net, BeginRead(t, s)).tasks[t].pc.RBlocked? <==>
               filled == Bit(net.tasks[x.prod].pc.WRaise? && net.tasks[x.prod].pc.s == s)))
  {
    ReachableInv(net);
    StreamAt(net, s);
    TaskAt(net, net.streams[s].prod);
    TaskAt(net, net.streams[s].cons);
  }

  /** The steps an operation has still to take at most, wakeups for which it waits included */
  function StepsLeft(pc: Pc): nat {
    match pc
    case Running => 0
    case WBlocked(_, _) => 5
    case WPut(_, _) => 4
    case WRaise(_, _) => 3
    case WSetSd(_) => 2
    case WUnblock(_) => 1
    case RBlocked(_) => 5
    case RTop(_) => 4
    case RPop(_, _) => 3
    case RRaise(_, _) => 2
    case RUnblock(_, _) => 1
    case PReturn(_, _, _) => 1
    case PUnregister(order, i, _) => if i <= |order| then 1 + |order| - i else 1
    case PCheck(order, _) => |order| + 2
    case PBlocked(order, _) => |order| + 3
    case PRegister(order, i, _) => |order| + 3 + if i <= |order| then |order| - i else 0
    case PPlace(order) => 2 * |order| + 4
    case PFast(order, i) => 2 * |order| + 4 + if i <= |order| then |order| - i else 0
  }

  /** Every step brings its operation nearer to its end, and no other operation further from it. */
  lemma EveryOperationEnds(net: Net, t: TaskId)
    requires WellFormed(net) && Enabled(net, Continue(t))
    ensures |Apply(net, Continue(t)).tasks| == |net.tasks|
    ensures StepsLeft(Apply(net, Continue(t)).tasks[t].pc) < StepsLeft(net.tasks[t].pc)
    ensures forall u :: 0 <= u < |net.tasks| && u != t ==> Apply(net, Continue(t)).tasks[u].pc == net.tasks[u].pc
  {
    assert PcOk(net, t);
  }

  // ---------------------------------------------------------------------------
  // LpelStreamTryWrite

  /**
    LpelStreamTryWrite tests for space and then writes. Its test rejects exactly a full stream;
    when it passes, the write nevertheless blocks exactly when one slot is free and the reader
    has popped the item of that slot but not yet raised e_sem.
   */
  lemma TryWriteBlocksIff(net: Net, t: TaskId, s: StreamId, item: Pointer)
    requires Reachable(net) && WellFormed(net) && Enabled(net, BeginWrite(t, s, item))
    ensures var x := net.streams[s];
      && (IsSpace(x.ring) <==> |x.sent| - |x.rcvd| < |x.ring.data|)
      && (IsSpace(x.ring) ==>
            (Apply(net, BeginWrite(t, s, item)).tasks[t].pc.WBlocked? <==>
               |x.sent| - |x.rcvd| == |x.ring.data| - 1
               && net.tasks[x.cons].pc.RRaise? && net.tasks[x.cons].pc.s == s))
  {
    ReachableInv(net);
    StreamAt(net, s);
    IsSpaceIffNotFull(net.streams[s].ring, Queue(net.streams[s]));
  }

  const IDLE := Task(Running, false, 0, 0, [], 0)

  /** One producer and one consumer on a stream of size 1 */
  function Small(producer: Pc, consumer: Pc, x: Stream): Net { Net([IDLE.(pc := producer), IDLE.(pc := consumer)], [x]) }

  lemma SmallStart() returns (net: Net)
    ensures Reachable(net) && WellFormed(net) && net == Small(Running, Running, Create(1, 0, 1))
  {
    net := Small(Running, Running, Create(1, 0, 1));
    assert FreshStream(net, net.streams[0]);
    assert IsRun([net], []);
    assert net in [net];
    ReachableInv(net);
  }

  lemma SmallClaimed() returns (net: Net)
    ensures Reachable(net) && WellFormed(net) && net == Small(WPut(0, 5), Running, Create(1, 0, 1).(eSem := 0))
  {
    var n0 := SmallStart();
    net := ReachableStep(n0, BeginWrite(0, 0, 5));
  }

  /** The producer has claimed the only slot and put an item. */
  lemma SmallPut() returns (net: Net)
    ensures Reachable(net) && WellFormed(net)
    ensures net == Small(WRaise(0, false), Running, PutItem(Create(1, 0, 1).(eSem := 0), 5))
  {
    var n1 := SmallClaimed();
    net := ReachableStep(n1, Continue(0));
  }

  lemma SmallWritten() returns (net: Net)
    ensures Reachable(net) && WellFormed(net)
    ensures net == Small(Running, Running, PutItem(Create(1, 0, 1).(eSem := 0), 5).(nSem := 1))
  {
    var n2 := SmallPut();
    net := ReachableStep(n2, Continue(0));
  }

  /** The consumer has popped the item and not yet raised e_sem. */
  lemma SmallPopped() returns (net: Net)
    ensures Reachable(net) && WellFormed(net) && |net.tasks| == 2 && |net.streams| == 1
    ensures net.tasks[0] == IDLE && net.tasks[1].pc.RRaise? && net.tasks[1].pc.s == 0
    ensures net.streams[0].prod == 0 && net.streams[0].cons == 1 && net.streams[0].eSem == 0
  {
    var n4 := SmallReading();
    var n5 := ReachableStep(n4, Continue(1));
    assert n5 == Small(Running, RPop(0, Top(n4.streams[0].ring)), n4.streams[0]);
    net := ReachableStep(n5, Continue(1));
  }

  lemma SmallReading() returns (net: Net)
    ensures Reachable(net) && WellFormed(net)
    ensures net == Small(Running, RTop(0), PutItem(Create(1, 0, 1).(eSem := 0), 5).(nSem := 0))
  {
    var n3 := SmallWritten();
    net := ReachableStep(n3, BeginRead(1, 0));
  }

  /** Such a state is reachable: one item through a stream of size 1. */
  lemma TryWriteCanBlock()
    ensures exists net: Net ::
      && Reachable(net) && WellFormed(net) && Enabled(net, BeginWrite(0, 0, 7))
      && IsSpace(net.streams[0].ring)
      && Apply(net, BeginWrite(0, 0, 7)).tasks[0].pc.WBlocked?
  {
    var net := SmallPopped();
    assert IsSpace(net.streams[0].ring) by {
      ReachableInv(net);
      StreamAt(net, 0);
      IsSpaceIffNotFull(net.streams[0].ring, Queue(net.streams[0]));
    }
  }
}
