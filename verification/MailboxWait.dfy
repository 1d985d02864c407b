/**
  Waiting receivers of a mailbox (mailbox.c): a send signals the condition variable only when the
  inbox was empty. One receiver never sleeps through a message; two can.
 */
module MailboxWait {
  import opened Mailbox

  /** A mailbox, the receivers in pthread_cond_wait, and those that have left it and still need the lock. */
  datatype Sys<N, M> = Sys(box: Box<N, M>, asleep: set<Thread>, woken: set<Thread>)

  datatype Move<N, M> =
    | Silent(a: Action<N, M>)                  // a section of module Mailbox that does not touch the inbox
    | Insert(e: Thread, m: M, woke: Thread)    // second section of a send; a signal wakes `woke`
    | Receive(e: Thread)                       // a receive enters its section: takes a message or waits
    | Resume(e: Thread)                        // a woken receiver has the lock again: takes a message or waits
    | Spurious(e: Thread)                      // a wait returns without a signal

  predicate Waiting<N, M>(sys: Sys<N, M>, e: Thread) { e in sys.asleep || e in sys.woken }

  /** e is in none of the sections. */
  predicate Outside<N, M>(sys: Sys<N, M>, e: Thread) { !Waiting(sys, e) && e !in sys.box.sending && e !in sys.box.receiving }

  predicate CanMove<N(==), M>(sys: Sys<N, M>, v: Move<N, M>) {
    match v
    case Silent(a) => !a.PutInbox? && !a.TakeInbox? && Enabled(sys.box, a) && (a.PutFree? || Outside(sys, a.e))
    case Insert(e, m, woke) => Enabled(sys.box, PutInbox(e, m)) && (sys.asleep != {} ==> woke in sys.asleep)
    case Receive(e) => Outside(sys, e) && CanTake(sys.box)
    case Resume(e) => e in sys.woken && e !in sys.box.receiving && CanTake(sys.box)
    case Spurious(e) => e in sys.asleep
  }

  /** The first node, if any, holds a message. */
  predicate CanTake<N(==), M>(b: Box<N, M>) { b.inbox != [] ==> b.inbox[0] in b.msg }

  /** The loop of LpelMailboxRecv for a receiver that holds the lock */
  function TakeOrWait<N, M>(sys: Sys<N, M>, e: Thread): Sys<N, M>
    requires e !in sys.box.receiving && CanTake(sys.box)
  {
    if sys.box.inbox == [] then sys.(asleep := sys.asleep + {e}, woken := sys.woken - {e})
    else sys.(box := Step(sys.box, TakeInbox(e)), woken := sys.woken - {e})
  }

  function Next<N, M>(sys: Sys<N, M>, v: Move<N, M>): Sys<N, M>
    requires CanMove(sys, v)
  {
    match v
    case Silent(a) => sys.(box := Step(sys.box, a))
    case Insert(e, m, woke) =>
      var sys1 := sys.(box := Step(sys.box, PutInbox(e, m)));
      if sys.box.inbox == [] && sys.asleep != {} then sys1.(asleep := sys.asleep - {woke}, woken := sys.woken + {woke}) else sys1
    case Receive(e) => TakeOrWait(sys, e)
    case Resume(e) => TakeOrWait(sys, e)
    case Spurious(e) => sys.(asleep := sys.asleep - {e}, woken := sys.woken + {e})
  }

  ghost predicate IsRun<N, M>(states: seq<Sys<N, M>>, moves: seq<Move<N, M>>) {
    && |states| == |moves| + 1 && states[0] == Sys(Empty(), {}, {})
    && forall i :: 0 <= i < |moves| ==> Moves(states[i], moves[i], states[i + 1])
  }

  ghost predicate Moves<N, M>(sys: Sys<N, M>, v: Move<N, M>, sys': Sys<N, M>) { CanMove(sys, v) && sys' == Next(sys, v) }

  /** The mailbox itself goes through steps of module Mailbox; a receiver that waits holds no node. */
  ghost predicate Inv<N, M>(sys: Sys<N, M>) {
    && Mailbox.Inv(sys.box)
    && sys.asleep !! sys.woken
    && (forall e :: Waiting(sys, e) ==> e !in sys.box.receiving && e !in sys.box.sending)
  }

  lemma NextInv<N, M>(sys: Sys<N, M>, v: Move<N, M>)
    requires Inv(sys) && CanMove(sys, v)
    ensures Inv(Next(sys, v))
  {
    match v
    case Silent(a) => StepInv(sys.box, a);
    case Insert(e, m, _) => StepInv(sys.box, PutInbox(e, m));
    case Receive(e) => TakeInv(sys, e);
    case Resume(e) => TakeInv(sys, e);
    case Spurious(_) =>
  }

  lemma TakeInv<N, M>(sys: Sys<N, M>, e: Thread)
    requires Inv(sys) && e !in sys.asleep && e !in sys.box.receiving && e !in sys.box.sending && CanTake(sys.box)
    ensures Inv(TakeOrWait(sys, e))
  {
    if sys.box.inbox != [] {
      StepInv(sys.box, TakeInbox(e));
    }
  }

  lemma {:induction false} RunInv<N, M>(states: seq<Sys<N, M>>, moves: seq<Move<N, M>>, i: nat)
    requires IsRun(states, moves) && i < |states|
    ensures Inv(states[i])
  {
    if i > 0 {
      RunInv(states, moves, i - 1);
      NextInv(states[i - 1], moves[i - 1]);
    }
  }

  /** The messages given to LpelMailboxSend, in the order of their insertion */
  function Inserted<N, M>(moves: seq<Move<N, M>>): seq<M> {
    if moves == [] then []
    else Inserted(moves[..|moves| - 1]) + match moves[|moves| - 1] case Insert(_, m, _) => [m] case _ => []
  }

  lemma {:induction false} SentIsInserted<N, M>(states: seq<Sys<N, M>>, moves: seq<Move<N, M>>, i: nat)
    requires IsRun(states, moves) && i < |states|
    ensures states[i].box.sent == Inserted(moves[..i])
  {
    if i > 0 {
      SentIsInserted(states, moves, i - 1);
      assert moves[..i][..i - 1] == moves[..i - 1] && moves[..i][i - 1] == moves[i - 1];
      assert Moves(states[i - 1], moves[i - 1], states[i]);
    }
  }

  /** Waiting changes neither the order of messages nor the ownership of nodes, and a woken receiver can always go on. */
  lemma WaitingIsHarmless<N, M>(states: seq<Sys<N, M>>, moves: seq<Move<N, M>>, i: nat, e: Thread)
    requires IsRun(states, moves) && i < |states|
    ensures Partition(states[i].box) && states[i].box.got <= Inserted(moves[..i])
    ensures e in states[i].woken ==> CanMove(states[i], Resume(e))
  {
    SentIsInserted(states, moves, i);
    RunInv(states, moves, i);
  }

  /** A receiver in its section takes the first message exactly if there is one, and otherwise sleeps. */
  lemma ReceiveLaw<N, M>(sys: Sys<N, M>, v: Move<N, M>)
    requires CanMove(sys, v) && (v.Receive? || v.Resume?)
    ensures var sys' := Next(sys, v);
      && v.e !in sys'.woken && sys'.woken == sys.woken - {v.e}
      && (sys.box.inbox == [] ==> sys' == sys.(asleep := sys.asleep + {v.e}, woken := sys.woken - {v.e}))
      && (sys.box.inbox != [] ==> sys'.asleep == sys.asleep && v.e in sys'.box.receiving && sys.box.inbox == [sys'.box.receiving[v.e]] + sys'.box.inbox)
  {
  }

  /** An insertion wakes one sleeping receiver exactly if the inbox was empty. */
  lemma SignalLaw<N, M>(sys: Sys<N, M>, e: Thread, m: M, woke: Thread)
    requires CanMove(sys, Insert(e, m, woke))
    ensures var sys' := Next(sys, Insert(e, m, woke));
      && sys'.box.inbox == sys.box.inbox + [sys.box.sending[e]]
      && (if sys.box.inbox == [] && sys.asleep != {}
          then woke in sys.asleep && sys'.asleep == sys.asleep - {woke} && sys'.woken == sys.woken + {woke}
          else sys'.asleep == sys.asleep && sys'.woken == sys.woken)
  {
  }

  /** A receiver sleeps although a message waits, and no receiver has been woken for it. */
  predicate Missed<N, M>(sys: Sys<N, M>) { sys.asleep != {} && sys.box.inbox != [] && sys.woken == {} }

  /** That comes about exactly when the only woken receiver takes one of several messages and another one sleeps. */
  lemma MissedIff<N, M>(sys: Sys<N, M>, v: Move<N, M>)
    requires CanMove(sys, v) && !Missed(sys)
    ensures Missed(Next(sys, v)) <==>
              v.Resume? && sys.woken == {v.e} && sys.asleep != {} && |sys.box.inbox| >= 2
  {
    match v
    case Insert(_, _, woke) => assert sys.asleep != {} ==> woke in Next(sys, v).woken || sys.box.inbox != [];
    case Spurious(e) => assert e in Next(sys, v).woken;
    case _ =>
  }

  /** Only thread r receives. */
  ghost predicate OneReceiver<N, M>(moves: seq<Move<N, M>>, r: Thread) {
    forall i :: 0 <= i < |moves| && moves[i].Receive? ==> moves[i].e == r
  }

  ghost predicate Alone<N, M>(sys: Sys<N, M>, r: Thread) {
    && sys.asleep <= {r} && sys.woken <= {r} && sys.asleep !! sys.woken
    && (r in sys.asleep ==> sys.box.inbox == [])
  }

  lemma AloneStep<N, M>(sys: Sys<N, M>, v: Move<N, M>, r: Thread)
    requires Alone(sys, r) && CanMove(sys, v) && (v.Receive? ==> v.e == r)
    ensures Alone(Next(sys, v), r)
  {
    match v
    case Insert(_, _, woke) =>
      if sys.asleep != {} {
        assert woke == r && sys.asleep - {woke} == {};
      }
    case _ =>
  }

  /** A mailbox with one receiver: while it sleeps the inbox is empty. */
  lemma {:induction false} OneReceiverMissesNothing<N, M>(states: seq<Sys<N, M>>, moves: seq<Move<N, M>>, r: Thread, i: nat)
    requires IsRun(states, moves) && OneReceiver(moves, r) && i < |states|
    ensures Alone(states[i], r) && !Missed(states[i])
  {
    if i > 0 {
      OneReceiverMissesNothing(states, moves, r, i - 1);
      assert Moves(states[i - 1], moves[i - 1], states[i]);
      AloneStep(states[i - 1], moves[i - 1], r);
    }
  }

  // ---------------------------------------------------------------------------
  // Two receivers

  const M0: Box<nat, nat> := Box([], [], map[0 := 0], map[0 := 0], map[], map[0 := Sender(0)], [], [], map[])

  const M1: Box<nat, nat> := M0.(sending := map[], inbox := [0], msg := map[0 := 7], place := map[0 := Inbox], sent := [7])

  const M2: Box<nat, nat> := M1.(sending := map[0 := 1], msg := map[0 := 7, 1 := 0], place := map[0 := Inbox, 1 := Sender(0)])

  const M3: Box<nat, nat> :=
    M2.(sending := map[], inbox := [0, 1], msg := map[0 := 7, 1 := 8], place := map[0 := Inbox, 1 := Inbox], sent := [7, 8])

  lemma FirstMessage()
    ensures Enabled(Empty(), Malloc(0, 0, 0)) && Step<nat, nat>(Empty(), Malloc(0, 0, 0)) == M0
    ensures Enabled(M0, PutInbox(0, 7)) && Step(M0, PutInbox(0, 7)) == M1
  {
  }

  lemma SecondMessage()
    ensures Enabled(M1, Malloc(0, 1, 0)) && Step(M1, Malloc(0, 1, 0)) == M2
    ensures Enabled(M2, PutInbox(0, 8)) && Step(M2, PutInbox(0, 8)) == M3
  {
  }

  const NONE: Box<nat, nat> := Empty()

  lemma BothSleep()
    ensures Moves(Sys(NONE, {}, {}), Receive(1), Sys(NONE, {1}, {}))
    ensures Moves(Sys(NONE, {1}, {}), Receive(2), Sys(NONE, {1, 2}, {}))
  {
    assert {1} + {2} == {1, 2} && {} + {1} == {1};
  }

  lemma OneSignal()
    ensures Moves(Sys(NONE, {1, 2}, {}), Silent(Malloc(0, 0, 0)), Sys(M0, {1, 2}, {}))
    ensures Moves(Sys(M0, {1, 2}, {}), Insert(0, 7, 1), Sys(M1, {2}, {1}))
  {
    FirstMessage();
    assert {1, 2} - {1} == {2} && {} + {1} == {1};
  }

  lemma NoSignal()
    ensures Moves(Sys(M1, {2}, {1}), Silent(Malloc(0, 1, 0)), Sys(M2, {2}, {1}))
    ensures Moves(Sys(M2, {2}, {1}), Insert(0, 8, 2), Sys(M3, {2}, {1}))
  {
    SecondMessage();
  }

  /** Two receivers sleep, two messages are sent, the one signal wakes receiver 1, which takes one message. */
  lemma TwoReceiversCanMiss() returns (states: seq<Sys<nat, nat>>, moves: seq<Move<nat, nat>>)
    ensures IsRun(states, moves) && Missed(states[|moves|])
  {
    BothSleep();
    OneSignal();
    NoSignal();
    moves := [Receive(1), Receive(2), Silent(Malloc(0, 0, 0)), Insert(0, 7, 1), Silent(Malloc(0, 1, 0)), Insert(0, 8, 2), Resume(1)];
    states := [Sys(NONE, {}, {}), Sys(NONE, {1}, {}), Sys(NONE, {1, 2}, {}), Sys(M0, {1, 2}, {}),
               Sys(M1, {2}, {1}), Sys(M2, {2}, {1}), Sys(M3, {2}, {1}), TakeOrWait(Sys(M3, {2}, {1}), 1)];
    MissedIff(states[6], moves[6]);
  }
}
