/**
  The flag tree under concurrent use (flagtree.h): any number of markers and one gatherer. One
  step is one access to a flag.
 */
module FlagTreeRun {
  import opened FlagTree

  type Thread = nat

  /** Where the gatherer is; the walk back to an ancestor touches no flag. */
  datatype Pc =
    | Idle
    | Visiting(c: nat)      // c was found set and is to be cleared
    | AtLeft(c: nat)        // the left child of c is to be read
    | AtRight(c: nat)       // the right child of c is to be read

  /**
    `marking` maps a marker to the node it set last, whose parent it sets next. `reported` and
    `pending` (leaves marked and not reported since) are history.
   */
  datatype State = State(h: nat, buf: seq<bool>, marking: map<Thread, nat>, pc: Pc, reported: seq<nat>, pending: set<nat>)

  datatype Action = Mark(e: Thread, l: nat) | MarkUp(e: Thread) | Gather

  ghost predicate Shape(st: State) {
    && Tree(st.buf, LeafStart(st.h))
    && (forall e :: e in st.marking ==> 0 < st.marking[e] < |st.buf|)
    && (match st.pc
        case Idle => true
        case Visiting(c) => c < |st.buf|
        case AtLeft(c) => c < LeafStart(st.h)
        case AtRight(c) => c < LeafStart(st.h))
  }

  ghost predicate Enabled(st: State, a: Action) {
    match a
    case Mark(e, l) => e !in st.marking && l < Pow2(st.h)
    case MarkUp(e) => e in st.marking
    case Gather => true
  }

  /** The marker goes on from j, unless that is the root. */
  function Marking(marking: map<Thread, nat>, e: Thread, j: nat): map<Thread, nat> {
    if j == 0 then marking - {e} else marking[e := j]
  }

  function MarkStep(st: State, e: Thread, l: nat): State
    requires Shape(st) && l < Pow2(st.h)
  {
    var j := l + LeafStart(st.h);
    st.(buf := st.buf[j := true], marking := Marking(st.marking, e, j), pending := st.pending + {l})
  }

  function MarkUpStep(st: State, e: Thread): State
    requires Shape(st) && e in st.marking
  {
    var j := Parent(st.marking[e]);
    st.(buf := st.buf[j := true], marking := Marking(st.marking, e, j))
  }

  /** The gatherer has finished the subtree of c. */
  function UpFrom(c: nat): Pc
    decreases c
  {
    if c == 0 then Idle
    else if c == Left(Parent(c)) then AtRight(Parent(c))
    else UpFrom(Parent(c))
  }

  function GatherStep(st: State): State
    requires Shape(st)
  {
    match st.pc
    case Idle => if st.buf[0] then st.(pc := Visiting(0)) else st
    case Visiting(c) =>
      var st1 := st.(buf := st.buf[c := false]);
      if c >= LeafStart(st.h) then
        var l := c - LeafStart(st.h);
        st1.(pc := UpFrom(c), reported := st.reported + [l], pending := st.pending - {l})
      else st1.(pc := AtLeft(c))
    case AtLeft(c) => st.(pc := if st.buf[Left(c)] then Visiting(Left(c)) else AtRight(c))
    case AtRight(c) => st.(pc := if st.buf[Right(c)] then Visiting(Right(c)) else UpFrom(c))
  }

  function Apply(st: State, a: Action): State
    requires Shape(st) && Enabled(st, a)
  {
    match a
    case Mark(e, l) => MarkStep(st, e, l)
    case MarkUp(e) => MarkUpStep(st, e)
    case Gather => GatherStep(st)
  }

  function Init(h: nat): State { State(h, AllClear(h), map[], Idle, [], {}) }

  ghost predicate IsRun(states: seq<State>, acts: seq<Action>) {
    && |states| == |acts| + 1
    && states[0] == Init(states[0].h)
    && forall i :: 0 <= i < |acts| ==>
         Shape(states[i]) && Enabled(states[i], acts[i]) && states[i + 1] == Apply(states[i], acts[i])
  }

  ghost predicate Reachable(st: State) {
    exists states, acts :: IsRun(states, acts) && st in states
  }

  // ---------------------------------------------------------------------------
  // The invariant

  /** On its way up from c the gatherer will still examine j. */
  predicate DueAbove(c: nat, j: nat)
    decreases c
  {
    c > 0 && ((c == Left(Parent(c)) && j == Right(Parent(c))) || DueAbove(Parent(c), j))
  }

  /** The gatherer will still examine j in this pass. */
  predicate Due(pc: Pc, j: nat) {
    match pc
    case Idle => false
    case Visiting(c) => j == c || j == Left(c) || j == Right(c) || DueAbove(c, j)
    case AtLeft(c) => j == Left(c) || j == Right(c) || DueAbove(c, j)
    case AtRight(c) => j == Right(c) || DueAbove(c, j)
  }

  /** The marker that set j is about to set its parent. */
  ghost predicate BeingMarked(marking: map<Thread, nat>, j: nat) {
    exists e :: e in marking && marking[e] == j
  }

  /** A set node is connected: its parent is set, or will be, or the gatherer comes by. */
  ghost predicate Connected(st: State, j: nat)
    requires 0 < j < |st.buf|
  {
    st.buf[Parent(j)] || BeingMarked(st.marking, j) || Due(st.pc, j)
  }

  ghost predicate Inv(st: State) {
    && Shape(st)
    && (forall j :: 0 < j < |st.buf| && st.buf[j] ==> Connected(st, j))
    && PendingOk(st.buf, LeafStart(st.h), st.pending)
  }

  /** The marked leaves are the pending ones. */
  ghost predicate PendingOk(b: seq<bool>, ls: nat, pending: set<nat>) {
    forall l: nat :: l in pending <==> Marked(b, ls, l)
  }

  lemma PendingLeaf(b: seq<bool>, ls: nat, pending: set<nat>, l: nat, v: bool)
    requires PendingOk(b, ls, pending) && l + ls < |b|
    ensures PendingOk(b[l + ls := v], ls, if v then pending + {l} else pending - {l})
  {
    var b' := b[l + ls := v];
    forall n: nat ensures Marked(b', ls, n) == if n == l then v else Marked(b, ls, n) {
    }
  }

  lemma PendingInner(b: seq<bool>, ls: nat, pending: set<nat>, j: nat, v: bool)
    requires PendingOk(b, ls, pending) && j < ls && j < |b|
    ensures PendingOk(b[j := v], ls, pending)
  {
    forall n: nat ensures Marked(b[j := v], ls, n) == Marked(b, ls, n) {
    }
  }

  lemma {:induction false} UpFromDue(c: nat, j: nat)
    ensures Due(UpFrom(c), j) == DueAbove(c, j)
    decreases c
  {
    if c > 0 && c != Left(Parent(c)) {
      UpFromDue(Parent(c), j);
    }
  }

  lemma {:induction false} UpFromShape(c: nat, ls: nat)
    requires c <= 2 * ls
    ensures UpFrom(c).Idle? || (UpFrom(c).AtRight? && UpFrom(c).c < ls)
    decreases c
  {
    if c > 0 && c != Left(Parent(c)) {
      UpFromShape(Parent(c), ls);
    }
  }

  /** A marker sets j; if it is not the root, the parent is next. */
  lemma SetConnected(st: State, st': State, e: Thread, j: nat)
    requires Shape(st) && j < |st.buf|
    requires forall k :: 0 < k < |st.buf| && st.buf[k] ==> Connected(st, k)
    requires e in st.marking ==> j == Parent(st.marking[e])
    requires st'.buf == st.buf[j := true] && st'.marking == Marking(st.marking, e, j) && st'.pc == st.pc
    ensures forall k :: 0 < k < |st'.buf| && st'.buf[k] ==> Connected(st', k)
  {
    forall k | 0 < k < |st'.buf| && st'.buf[k] ensures Connected(st', k) {
      if k == j {
        assert st'.marking[e] == j;
      } else {
        assert Connected(st, k);
        if f :| f in st.marking && st.marking[f] == k {
          assert f == e || (f in st'.marking && st'.marking[f] == k);
        }
      }
    }
  }

  lemma MarkInv(st: State, e: Thread, l: nat)
    requires Inv(st) && Enabled(st, Mark(e, l))
    ensures Inv(MarkStep(st, e, l))
  {
    var st' := MarkStep(st, e, l);
    SetConnected(st, st', e, l + LeafStart(st.h));
    PendingLeaf(st.buf, LeafStart(st.h), st.pending, l, true);
  }

  lemma MarkUpInv(st: State, e: Thread)
    requires Inv(st) && e in st.marking
    ensures Inv(MarkUpStep(st, e))
  {
    var st', ls := MarkUpStep(st, e), LeafStart(st.h);
    var j := Parent(st.marking[e]);
    assert j < ls;
    SetConnected(st, st', e, j);
    PendingInner(st.buf, ls, st.pending, j, true);
  }

  /** The children of the node just cleared are still to be examined. */
  lemma VisitingConnected(st: State, j: nat)
    requires Inv(st) && st.pc.Visiting? && 0 < j < |st.buf| && j != st.pc.c && st.buf[j]
    ensures Connected(GatherStep(st), j)
  {
    assert Connected(st, j);
    UpFromDue(st.pc.c, j);
    if st.buf[Parent(j)] && Parent(j) == st.pc.c {
      assert st.pc.c < LeafStart(st.h);
    }
  }

  lemma VisitingShape(st: State)
    requires Shape(st) && st.pc.Visiting?
    ensures Shape(GatherStep(st))
  {
    UpFromShape(st.pc.c, LeafStart(st.h));
  }

  lemma VisitingPending(st: State, ls: nat)
    requires Shape(st) && ls == LeafStart(st.h) && PendingOk(st.buf, ls, st.pending) && st.pc.Visiting?
    ensures PendingOk(GatherStep(st).buf, ls, GatherStep(st).pending)
  {
    var c := st.pc.c;
    if c >= ls {
      PendingLeaf(st.buf, ls, st.pending, c - ls, false);
    } else {
      PendingInner(st.buf, ls, st.pending, c, false);
    }
  }

  lemma VisitingInv(st: State)
    requires Inv(st) && st.pc.Visiting?
    ensures Inv(GatherStep(st))
  {
    var st' := GatherStep(st);
    VisitingShape(st);
    VisitingPending(st, LeafStart(st.h));
    forall j | 0 < j < |st'.buf| && st'.buf[j] ensures Connected(st', j) {
      VisitingConnected(st, j);
    }
  }

  /** Examining a child */
  lemma ExamineInv(st: State)
    requires Inv(st) && (st.pc.AtLeft? || st.pc.AtRight?)
    ensures Inv(GatherStep(st))
  {
    var st', c := GatherStep(st), st.pc.c;
    UpFromShape(c, LeafStart(st.h));
    assert Parent(Left(c)) == c && Parent(Right(c)) == c;
    forall j | 0 < j < |st'.buf| && st'.buf[j] ensures Connected(st', j) {
      assert Connected(st, j);
      UpFromDue(c, j);
    }
  }

  lemma ApplyInv(st: State, a: Action)
    requires Inv(st) && Enabled(st, a)
    ensures Inv(Apply(st, a))
  {
    match a
    case Mark(e, l) => MarkInv(st, e, l);
    case MarkUp(e) => MarkUpInv(st, e);
    case Gather =>
      match st.pc {
        case Idle =>
          forall j | 0 < j < |st.buf| && st.buf[j] ensures Connected(GatherStep(st), j) {
            assert Connected(st, j);
          }
        case Visiting(_) => VisitingInv(st);
        case _ => ExamineInv(st);
      }
  }

  lemma InitInv(h: nat)
    ensures Inv(Init(h))
  {
  }

  lemma {:induction false} RunInv(states: seq<State>, acts: seq<Action>, i: nat)
    requires IsRun(states, acts) && i < |states|
    ensures Inv(states[i])
  {
    if i == 0 {
      InitInv(states[0].h);
    } else {
      RunInv(states, acts, i - 1);
      ApplyInv(states[i - 1], acts[i - 1]);
    }
  }

  lemma ReachableInv(st: State)
    requires Reachable(st)
    ensures Inv(st)
  {
    var states, acts :| IsRun(states, acts) && st in states;
    var i :| 0 <= i < |states| && states[i] == st;
    RunInv(states, acts, i);
  }

  // ---------------------------------------------------------------------------
  // What every run guarantees

  /** Every set node other than the root has its parent set, or a marker about to set it, or the gatherer due to examine it. */
  lemma NothingLost(st: State, j: nat)
    requires Reachable(st) && 0 < j < |st.buf| && st.buf[j]
    ensures st.buf[Parent(j)] || BeingMarked(st.marking, j) || Due(st.pc, j)
  {
    ReachableInv(st);
    assert Connected(st, j);
  }

  /** What the gatherer, alone from here on, leaves and reports */
  function Rest(st: State): Out
    requires Shape(st)
  {
    var ls := LeafStart(st.h);
    match st.pc
    case Idle => Out(st.buf, [])
    case Visiting(c) => Down(st.buf, ls, c)
    case AtLeft(c) => FromLeft(st.buf, ls, c)
    case AtRight(c) => FromRight(st.buf, ls, c)
  }

  lemma {:induction false} UpFromRest(b: seq<bool>, h: nat, c: nat)
    requires Tree(b, LeafStart(h)) && c < |b|
    ensures var pc := UpFrom(c); var ls := LeafStart(h);
      Up(b, ls, c) == if pc.Idle? then Out(b, []) else if pc.AtRight? && pc.c < ls then FromRight(b, ls, pc.c) else Out([], [])
    decreases c
  {
    var ls := LeafStart(h);
    UpFromShape(c, ls);
    if c > 0 {
      UpIs(b, ls, c);
      if c != Left(Parent(c)) {
        UpFromRest(b, h, Parent(c));
      }
    }
  }

  /** A step of the lone gatherer does part of the rest. */
  lemma LoneStep(st: State)
    requires Shape(st) && !st.pc.Idle?
    ensures var st' := GatherStep(st);
      Shape(st') && st'.reported + Rest(st').leaves == st.reported + Rest(st).leaves && Rest(st').buf == Rest(st).buf
  {
    var st', ls := GatherStep(st), LeafStart(st.h);
    UpFromShape(st.pc.c, ls);
    match st.pc
    case Visiting(c) =>
      if c >= ls {
        DownLeaf(st.buf, ls, c);
        UpFromRest(st'.buf, st.h, c);
        var rest := Up(st'.buf, ls, c).leaves;
        assert (st.reported + [c - ls]) + rest == st.reported + ([c - ls] + rest);
      } else {
        DownInner(st.buf, ls, c);
      }
    case AtLeft(c) =>
    case AtRight(c) => UpFromRest(st.buf, st.h, c);
  }

  /** The position of the gatherer in a pass, for termination */
  function Rank(st: State): nat {
    match st.pc
    case Idle => 0
    case Visiting(_) => 1
    case AtLeft(c) => 3 + 2 * c
    case AtRight(c) => 2 + 2 * c
  }

  /** The gatherer finishes its pass alone. */
  function Complete(st: State): State
    requires Shape(st) && (st.pc.Visiting? ==> st.buf[st.pc.c])
    decreases Count(st.buf), Rank(st)
  {
    if st.pc.Idle? then st
    else
      LoneStep(st);
      LoneRank(st);
      Complete(GatherStep(st))
  }

  lemma {:induction false} UpFromRank(c: nat)
    ensures UpFrom(c).Idle? || (UpFrom(c).AtRight? && UpFrom(c).c < c)
    decreases c
  {
    if c > 0 && c != Left(Parent(c)) {
      UpFromRank(Parent(c));
    }
  }

  lemma LoneRank(st: State)
    requires Shape(st) && !st.pc.Idle? && (st.pc.Visiting? ==> st.buf[st.pc.c])
    ensures var st' := GatherStep(st);
      && Shape(st') && (Count(st'.buf) < Count(st.buf) || (Count(st'.buf) == Count(st.buf) && Rank(st') < Rank(st)))
      && (st'.pc.Visiting? ==> st'.buf[st'.pc.c])
  {
    UpFromRank(st.pc.c);
    LoneStep(st);
    if st.pc.Visiting? {
      CountClear(st.buf, st.pc.c);
    }
  }

  lemma {:induction false} CompleteDoesRest(st: State)
    requires Shape(st) && (st.pc.Visiting? ==> st.buf[st.pc.c])
    ensures var st' := Complete(st);
      && st'.pc.Idle? && st'.buf == Rest(st).buf && st'.reported == st.reported + Rest(st).leaves
    decreases Count(st.buf), Rank(st)
  {
    if !st.pc.Idle? {
      LoneStep(st);
      LoneRank(st);
      CompleteDoesRest(GatherStep(st));
    }
  }

  /** At quiescence every set leaf has a fully set path to the root, and the set leaves are the pending ones. */
  lemma Quiescent(st: State)
    requires Reachable(st) && st.pc.Idle? && st.marking == map[]
    ensures Shape(st) && UpClosed(st.buf) && PendingOk(st.buf, LeafStart(st.h), st.pending)
    ensures forall j :: 0 <= j < |st.buf| && st.buf[j] ==> Path(st.buf, 0, j)
  {
    ReachableInv(st);
    forall j | 0 < j < |st.buf| && st.buf[j] ensures st.buf[Parent(j)] {
      assert Connected(st, j);
    }
    forall j | 0 <= j < |st.buf| && st.buf[j] ensures Path(st.buf, 0, j) {
      UpClosedPath(st.buf, j);
    }
  }

  /**
    The next gather, if nobody interferes, reports exactly the pending leaves in increasing order
    and leaves the tree clear.
   */
  lemma NextGatherReports(st: State)
    requires Reachable(st) && st.pc.Idle? && st.marking == map[]
    ensures Shape(st) && Shape(GatherStep(st)) && (GatherStep(st).pc.Visiting? ==> GatherStep(st).buf[GatherStep(st).pc.c])
    ensures var st' := Complete(GatherStep(st)); var found := GatherRec(st.buf, LeafStart(st.h)).leaves;
      && st'.pc.Idle? && st'.reported == st.reported + found
      && Increasing(found) && (forall l: nat :: l in found <==> l in st.pending)
      && (forall j :: 0 <= j < |st'.buf| ==> !st'.buf[j])
  {
    Quiescent(st);
    GatherAll(st.buf, st.h);
    FirstStep(st);
    CompleteDoesRest(GatherStep(st));
  }

  lemma FirstStep(st: State)
    requires Shape(st) && st.pc.Idle?
    ensures var st' := GatherStep(st);
      Shape(st') && st'.reported == st.reported && Rest(st') == GatherRec(st.buf, LeafStart(st.h)) && (st'.pc.Visiting? ==> st'.buf[st'.pc.c])
  {
    var ls := LeafStart(st.h);
    if st.buf[0] {
      var o := Visit(st.buf, ls, 0);
      assert Down(st.buf, ls, 0) == Out(o.buf, o.leaves + []);
    }
  }

  // ---------------------------------------------------------------------------
  // A marker

  /** A mark sets the flag of its leaf first; each further step sets that of the parent, until the root is set. */
  lemma MarkLaw(st: State, e: Thread, l: nat)
    requires Shape(st)
    ensures Enabled(st, Mark(e, l)) ==>
              var st', j := Apply(st, Mark(e, l)), l + LeafStart(st.h);
              && st'.buf == st.buf[j := true] && st'.pc == st.pc
              && (if j > 0 then e in st'.marking && st'.marking[e] == j else e !in st'.marking)
    ensures Enabled(st, MarkUp(e)) ==>
              var st', j := Apply(st, MarkUp(e)), Parent(st.marking[e]);
              && st'.buf == st.buf[j := true] && st'.pc == st.pc && j < st.marking[e]
              && (if j > 0 then e in st'.marking && st'.marking[e] == j else e !in st'.marking)
    ensures forall f :: f != e && f in st.marking && Enabled(st, MarkUp(e)) ==>
              f in Apply(st, MarkUp(e)).marking && Apply(st, MarkUp(e)).marking[f] == st.marking[f]
  {
  }

  // ---------------------------------------------------------------------------
  // Marks and reports, told from the run alone

  /** The step reports leaf l. */
  predicate Reports(st: State, a: Action, l: nat) {
    a.Gather? && st.pc == Visiting(l + LeafStart(st.h))
  }

  /** Leaf l was marked, and not reported after that. */
  ghost predicate MarkedSince(states: seq<State>, acts: seq<Action>, l: nat)
    requires |states| > |acts|
  {
    exists i :: 0 <= i < |acts| && MarkedLast(states, acts, l, i)
  }

  ghost predicate MarkedLast(states: seq<State>, acts: seq<Action>, l: nat, i: nat)
    requires i < |acts| < |states|
  {
    acts[i].Mark? && acts[i].l == l && forall j :: i < j < |acts| ==> !Reports(states[j], acts[j], l)
  }

  lemma PendingStep(st: State, a: Action, l: nat)
    requires Shape(st) && Enabled(st, a)
    ensures Apply(st, a).h == st.h
    ensures l in Apply(st, a).pending <==> (a.Mark? && a.l == l) || (l in st.pending && !Reports(st, a, l))
  {
  }

  lemma MarkedSinceStep(states: seq<State>, acts: seq<Action>, l: nat)
    requires |states| > |acts| > 0
    ensures var n := |acts| - 1;
      MarkedSince(states, acts, l) <==>
        (acts[n].Mark? && acts[n].l == l) || (MarkedSince(states[..n + 1], acts[..n], l) && !Reports(states[n], acts[n], l))
  {
    var n := |acts| - 1;
    if MarkedSince(states, acts, l) {
      var i :| 0 <= i < |acts| && MarkedLast(states, acts, l, i);
      if i < n {
        assert MarkedLast(states[..n + 1], acts[..n], l, i);
      }
    }
    if acts[n].Mark? && acts[n].l == l {
      assert MarkedLast(states, acts, l, n);
    } else if MarkedSince(states[..n + 1], acts[..n], l) && !Reports(states[n], acts[n], l) {
      var i :| 0 <= i < n && MarkedLast(states[..n + 1], acts[..n], l, i);
      StillLast(states, acts, l, i);
    }
  }

  lemma StillLast(states: seq<State>, acts: seq<Action>, l: nat, i: nat)
    requires |states| > |acts| > 0
    requires var n := |acts| - 1;
      i < n && MarkedLast(states[..n + 1], acts[..n], l, i) && !Reports(states[n], acts[n], l)
    ensures MarkedLast(states, acts, l, i)
  {
    var n := |acts| - 1;
    forall j | i < j < |acts| ensures !Reports(states[j], acts[j], l) {
      if j < n {
        assert states[..n + 1][j] == states[j] && acts[..n][j] == acts[j];
      }
    }
  }

  lemma {:induction false} PendingIff(states: seq<State>, acts: seq<Action>, l: nat)
    requires IsRun(states, acts)
    ensures l in states[|acts|].pending <==> MarkedSince(states, acts, l)
    decreases |acts|
  {
    if acts != [] {
      var n := |acts| - 1;
      assert IsRun(states[..n + 1], acts[..n]);
      PendingIff(states[..n + 1], acts[..n], l);
      PendingStep(states[n], acts[n], l);
      MarkedSinceStep(states, acts, l);
    }
  }

  /** In every run, at any time, a leaf's flag is set exactly if some Mark of it came after its last report. */
  lemma SetIffMarkedSince(states: seq<State>, acts: seq<Action>, l: nat)
    requires IsRun(states, acts)
    ensures var st := states[|acts|]; Marked(st.buf, LeafStart(st.h), l) <==> MarkedSince(states, acts, l)
  {
    PendingIff(states, acts, l);
    RunInv(states, acts, |acts|);
  }

  /** With no marker under way, the next gather reports exactly the leaves marked since their last report. */
  lemma NextGatherReportsMarked(states: seq<State>, acts: seq<Action>, l: nat)
    requires IsRun(states, acts) && states[|acts|].pc.Idle? && states[|acts|].marking == map[]
    ensures var st := states[|acts|];
      && Shape(st) && Shape(GatherStep(st)) && (GatherStep(st).pc.Visiting? ==> GatherStep(st).buf[GatherStep(st).pc.c])
      && var reported := Complete(GatherStep(st)).reported;
      && st.reported <= reported && (l in reported[|st.reported|..] <==> MarkedSince(states, acts, l))
  {
    PendingIff(states, acts, l);
    assert states[|acts|] in states;
    NextGatherReports(states[|acts|]);
  }
}
