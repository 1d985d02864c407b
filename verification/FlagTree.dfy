/**
  The flag tree (flagtree.h, flagtree.c): a complete binary tree of flags in heap layout. Markers
  set the path from a leaf to the root; the gatherer reports and clears marked leaves.
 */
module FlagTree {
  function Pow2(h: nat): (p: nat)
    ensures p >= 1
  {
    if h == 0 then 1 else 2 * Pow2(h - 1)
  }

  /** FT_LEAF_START_IDX: also the number of inner nodes */
  function LeafStart(h: nat): nat { Pow2(h) - 1 }

  /** FT_NODES */
  function Nodes(h: nat): nat { 2 * Pow2(h) - 1 }

  /** FT_PARENT; the C division makes the root its own parent. */
  function Parent(i: nat): (p: nat)
    ensures i > 0 ==> p < i && (i == Left(p) || i == Right(p))
    ensures i == 0 ==> p == 0
  {
    if i == 0 then 0 else (i - 1) / 2
  }

  function Left(i: nat): nat { 2 * i + 1 }

  function Right(i: nat): nat { 2 * i + 2 }

  /** The flags of a tree with `ls` inner nodes */
  predicate Tree(b: seq<bool>, ls: nat) { |b| == 2 * ls + 1 }

  /** The flags left behind and the leaves reported, in order */
  datatype Out = Out(buf: seq<bool>, leaves: seq<nat>)

  function Prefix(leaves: seq<nat>, o: Out): Out { Out(o.buf, leaves + o.leaves) }

  /** Visit of flagtree.c: clears node i in preorder and descends into marked children. */
  function Visit(b: seq<bool>, ls: nat, i: nat): (o: Out)
    requires Tree(b, ls) && i < |b|
    ensures Tree(o.buf, ls)
    decreases |b| - i
  {
    var b1 := b[i := false];
    if i < ls then
      var l := if b1[Left(i)] then Visit(b1, ls, Left(i)) else Out(b1, []);
      var r := if l.buf[Right(i)] then Visit(l.buf, ls, Right(i)) else Out(l.buf, []);
      Prefix(l.leaves, r)
    else Out(b1, [i - ls])
  }

  /** FlagtreeGatherRec */
  function GatherRec(b: seq<bool>, ls: nat): (o: Out)
    requires Tree(b, ls)
    ensures Tree(o.buf, ls)
  {
    if b[0] then Visit(b, ls, 0) else Out(b, [])
  }

  // ---------------------------------------------------------------------------
  // What a visit clears and reports, on any tree

  /** j is below i, and every node on the way from i, exclusive, down to j is set. */
  predicate Path(b: seq<bool>, i: nat, j: nat)
    requires j < |b|
    decreases j
  {
    j == i || (j > i && b[j] && Path(b, i, Parent(j)))
  }

  lemma {:induction false} PathSplit(b: seq<bool>, i: nat, j: nat)
    requires j < |b| && Right(i) < |b| && j != i
    ensures Path(b, i, j) <==> (b[Left(i)] && Path(b, Left(i), j)) || (b[Right(i)] && Path(b, Right(i), j))
    decreases j
  {
    if j > i && Parent(j) != i {
      PathSplit(b, i, Parent(j));
    }
  }

  lemma {:induction false} PathDisjoint(b: seq<bool>, i: nat, j: nat)
    requires j < |b| && Path(b, Left(i), j)
    ensures !Path(b, Right(i), j)
    decreases j
  {
    if j > Right(i) {
      PathDisjoint(b, i, Parent(j));
    }
  }

  /** Nodes at or above i do not matter. */
  lemma {:induction false} PathFrame(b: seq<bool>, b': seq<bool>, i: nat, j: nat)
    requires |b| == |b'| && j < |b|
    requires forall k :: i < k < |b| ==> b'[k] == b[k]
    ensures Path(b', i, j) == Path(b, i, j)
    decreases j
  {
    if j > i {
      PathFrame(b, b', i, Parent(j));
    }
  }

  /** o is what a visit of i makes of b. */
  ghost predicate Cleared(b: seq<bool>, ls: nat, i: nat, o: Out)
    requires Tree(b, ls) && i < |b|
  {
    && Tree(o.buf, ls)
    && (forall j :: 0 <= j < |b| ==> o.buf[j] == (b[j] && !Path(b, i, j)))
    && (forall l: nat :: l in o.leaves <==> l + ls < |b| && Path(b, i, l + ls))
  }

  /** Clearing below the left child leaves the paths below the right one. */
  lemma {:induction false} PathRight(b: seq<bool>, b': seq<bool>, i: nat, j: nat)
    requires |b| == |b'| && j < |b|
    requires forall k :: 0 <= k < |b| ==> b'[k] == (b[k] && !Path(b, Left(i), k))
    ensures Path(b', Right(i), j) == Path(b, Right(i), j)
    decreases j
  {
    if j > Right(i) {
      PathRight(b, b', i, Parent(j));
      if Path(b, Left(i), j) {
        PathDisjoint(b, i, j);
      }
    }
  }

  lemma {:induction false} VisitClears(b: seq<bool>, ls: nat, i: nat)
    requires Tree(b, ls) && i < |b|
    ensures Cleared(b, ls, i, Visit(b, ls, i))
    decreases |b| - i
  {
    var b1 := b[i := false];
    if i < ls {
      var l := if b1[Left(i)] then Visit(b1, ls, Left(i)) else Out(b1, []);
      if b1[Left(i)] {
        VisitClears(b1, ls, Left(i));
      }
      if l.buf[Right(i)] {
        VisitClears(l.buf, ls, Right(i));
      }
      VisitInner(b, ls, i);
    } else {
      VisitLeaf(b, ls, i);
    }
  }

  lemma {:induction false} VisitLeaf(b: seq<bool>, ls: nat, i: nat)
    requires Tree(b, ls) && ls <= i < |b|
    ensures Cleared(b, ls, i, Out(b[i := false], [i - ls]))
  {
    forall j | 0 <= j < |b| && j != i ensures !Path(b, i, j) {
      if j > i {
        assert Parent(j) < i;
      }
    }
  }

  /** The left half of a visit: the flags after it, and what it reports. */
  ghost predicate LeftDone(b: seq<bool>, ls: nat, i: nat, l: Out)
    requires Tree(b, ls) && i < ls
  {
    && Tree(l.buf, ls)
    && (forall j :: 0 <= j < |b| ==> l.buf[j] == (j != i && b[j] && !(b[Left(i)] && Path(b, Left(i), j))))
    && (forall n: nat :: n in l.leaves <==> n + ls < |b| && b[Left(i)] && Path(b, Left(i), n + ls))
  }

  lemma {:induction false} VisitLeft(b: seq<bool>, ls: nat, i: nat, l: Out)
    requires Tree(b, ls) && i < ls
    requires var b1 := b[i := false]; if b[Left(i)] then Cleared(b1, ls, Left(i), l) else l == Out(b1, [])
    ensures LeftDone(b, ls, i, l)
  {
    var b1 := b[i := false];
    forall j | 0 <= j < |b| ensures Path(b1, Left(i), j) == Path(b, Left(i), j) {
      PathFrame(b, b1, Left(i), j);
    }
  }

  lemma {:induction false} RightPaths(b: seq<bool>, ls: nat, i: nat, l: Out, j: nat)
    requires Tree(b, ls) && i < ls && LeftDone(b, ls, i, l) && j < |b|
    ensures l.buf[Right(i)] == b[Right(i)] && Path(l.buf, Right(i), j) == Path(b, Right(i), j)
  {
    var b1 := b[i := false];
    PathFrame(b, b1, Right(i), j);
    assert !Path(b, Left(i), Right(i));
    if b[Left(i)] {
      forall k | 0 <= k < |b| ensures Path(b1, Left(i), k) == Path(b, Left(i), k) {
        PathFrame(b, b1, Left(i), k);
      }
      PathRight(b1, l.buf, i, j);
    } else {
      assert l.buf == b1;
    }
  }

  lemma {:induction false} VisitRight(b: seq<bool>, ls: nat, i: nat, l: Out, r: Out)
    requires Tree(b, ls) && i < ls && LeftDone(b, ls, i, l)
    requires if l.buf[Right(i)] then Cleared(l.buf, ls, Right(i), r) else r == Out(l.buf, [])
    ensures Cleared(b, ls, i, Prefix(l.leaves, r))
  {
    forall j | 0 <= j < |b| && j != i
      ensures l.buf[Right(i)] == b[Right(i)] && Path(l.buf, Right(i), j) == Path(b, Right(i), j)
      ensures Path(b, i, j) <==> (b[Left(i)] && Path(b, Left(i), j)) || (b[Right(i)] && Path(b, Right(i), j))
    {
      RightPaths(b, ls, i, l, j);
      PathSplit(b, i, j);
    }
    RightPaths(b, ls, i, l, 0);
  }

  lemma {:induction false} VisitInner(b: seq<bool>, ls: nat, i: nat)
    requires Tree(b, ls) && i < ls
    requires var b1 := b[i := false];
      && (b1[Left(i)] ==> Cleared(b1, ls, Left(i), Visit(b1, ls, Left(i))))
      && var l := if b1[Left(i)] then Visit(b1, ls, Left(i)) else Out(b1, []);
      l.buf[Right(i)] ==> Cleared(l.buf, ls, Right(i), Visit(l.buf, ls, Right(i)))
    ensures Cleared(b, ls, i, Visit(b, ls, i))
  {
    var b1 := b[i := false];
    var l := if b1[Left(i)] then Visit(b1, ls, Left(i)) else Out(b1, []);
    var r := if l.buf[Right(i)] then Visit(l.buf, ls, Right(i)) else Out(l.buf, []);
    VisitLeft(b, ls, i, l);
    VisitRight(b, ls, i, l, r);
  }

  // ---------------------------------------------------------------------------
  // The order of the report

  ghost predicate Increasing(s: seq<nat>) {
    forall i, j :: 0 <= i < j < |s| ==> s[i] < s[j]
  }

  /** Node i is on level d of a tree (the root is on level 0). */
  predicate OnLevel(i: nat, d: nat) { Pow2(d) - 1 <= i < Pow2(d + 1) - 1 }

  lemma {:induction false} Pow2Grows(d: nat, h: nat)
    requires d <= h
    ensures Pow2(d) <= Pow2(h)
    decreases h
  {
    if d < h {
      Pow2Grows(d, h - 1);
    }
  }

  /** The leaves lie on level h. */
  lemma LeafLevel(i: nat, d: nat, h: nat)
    requires OnLevel(i, d) && d <= h
    ensures i < LeafStart(h) <==> d < h
    ensures i < Nodes(h)
  {
    if d < h {
      Pow2Grows(d + 1, h);
    }
  }

  /** The leftmost and the rightmost leaf below i */
  function First(i: nat, ls: nat): nat
    decreases ls - i
  {
    if i < ls then First(Left(i), ls) else i - ls
  }

  function Last(i: nat, ls: nat): nat
    decreases ls - i
  {
    if i < ls then Last(Right(i), ls) else i - ls
  }

  lemma {:induction false} NextSubtree(i: nat, d: nat, h: nat)
    requires d <= h && OnLevel(i, d) && OnLevel(i + 1, d)
    ensures Last(i, LeafStart(h)) + 1 == First(i + 1, LeafStart(h))
    decreases h - d
  {
    LeafLevel(i, d, h);
    LeafLevel(i + 1, d, h);
    if d < h {
      NextSubtree(Right(i), d + 1, h);
    }
  }

  lemma {:induction false} FirstLast(i: nat, d: nat, h: nat)
    requires d <= h && OnLevel(i, d)
    ensures First(i, LeafStart(h)) <= Last(i, LeafStart(h))
    ensures d < h ==> First(i, LeafStart(h)) == First(Left(i), LeafStart(h))
    ensures d < h ==> Last(Left(i), LeafStart(h)) < First(Right(i), LeafStart(h)) && Last(i, LeafStart(h)) == Last(Right(i), LeafStart(h))
    decreases h - d
  {
    LeafLevel(i, d, h);
    if d < h {
      FirstLast(Left(i), d + 1, h);
      FirstLast(Right(i), d + 1, h);
      NextSubtree(Left(i), d + 1, h);
    }
  }

  ghost predicate Between(s: seq<nat>, lo: nat, hi: nat) {
    forall i :: 0 <= i < |s| ==> lo <= s[i] <= hi
  }

  lemma Join(s: seq<nat>, t: seq<nat>, lo: nat, m: nat, n: nat, hi: nat)
    requires Increasing(s) && Increasing(t) && Between(s, lo, m) && Between(t, n, hi) && lo <= m < n <= hi
    ensures Increasing(s + t) && Between(s + t, lo, hi)
  {
  }

  lemma {:induction false} VisitOrder(b: seq<bool>, h: nat, i: nat, d: nat)
    requires Tree(b, LeafStart(h)) && d <= h && OnLevel(i, d) && i < |b|
    ensures var o := Visit(b, LeafStart(h), i);
      Increasing(o.leaves) && Between(o.leaves, First(i, LeafStart(h)), Last(i, LeafStart(h)))
    decreases h - d
  {
    var ls := LeafStart(h);
    LeafLevel(i, d, h);
    FirstLast(i, d, h);
    if d < h {
      var b1 := b[i := false];
      var l := if b1[Left(i)] then Visit(b1, ls, Left(i)) else Out(b1, []);
      if b1[Left(i)] {
        VisitOrder(b1, h, Left(i), d + 1);
      }
      if l.buf[Right(i)] {
        VisitOrder(l.buf, h, Right(i), d + 1);
      }
      var r := if l.buf[Right(i)] then Visit(l.buf, ls, Right(i)) else Out(l.buf, []);
      FirstLast(Left(i), d + 1, h);
      FirstLast(Right(i), d + 1, h);
      Join(l.leaves, r.leaves, First(Left(i), ls), Last(Left(i), ls), First(Right(i), ls), Last(Right(i), ls));
    }
  }

  /** Leaf l is marked. */
  predicate Marked(b: seq<bool>, ls: nat, l: nat) { l + ls < |b| && b[l + ls] }

  // ---------------------------------------------------------------------------
  // Trees in which a set node has a set parent

  ghost predicate UpClosed(b: seq<bool>) {
    forall j :: 0 < j < |b| && b[j] ==> b[Parent(j)]
  }

  lemma {:induction false} UpClosedPath(b: seq<bool>, j: nat)
    requires UpClosed(b) && j < |b| && b[j]
    ensures b[0] && Path(b, 0, j)
    decreases j
  {
    if j > 0 {
      UpClosedPath(b, Parent(j));
    }
  }

  /** On any tree a gather reports, in increasing order, the leaves whose whole path to the root is set, and clears those paths only. */
  lemma GatherExact(b: seq<bool>, h: nat)
    requires Tree(b, LeafStart(h))
    ensures var o := GatherRec(b, LeafStart(h));
      && Increasing(o.leaves)
      && (forall l: nat :: l in o.leaves <==> l < Pow2(h) && b[0] && Path(b, 0, l + LeafStart(h)))
      && (forall j :: 0 <= j < |b| ==> o.buf[j] == (b[j] && !(b[0] && Path(b, 0, j))))
  {
    if b[0] {
      VisitClears(b, LeafStart(h), 0);
      VisitOrder(b, h, 0, 0);
    }
  }

  /** On an up-closed tree it reports exactly the set leaves and leaves the tree all clear. */
  lemma GatherAll(b: seq<bool>, h: nat)
    requires Tree(b, LeafStart(h)) && UpClosed(b)
    ensures var o := GatherRec(b, LeafStart(h));
      && Increasing(o.leaves)
      && (forall l: nat :: l in o.leaves <==> Marked(b, LeafStart(h), l))
      && (forall j :: 0 <= j < |b| ==> !o.buf[j])
  {
    GatherExact(b, h);
    forall j | 0 <= j < |b| && b[j] ensures b[0] && Path(b, 0, j) {
      UpClosedPath(b, j);
    }
  }

  // ---------------------------------------------------------------------------
  // The iterative gather

  /** What remains to be done once the subtree of c is finished */
  function Up(b: seq<bool>, ls: nat, c: nat): (o: Out)
    requires Tree(b, ls) && c < |b|
    ensures Tree(o.buf, ls)
    decreases c
  {
    if c == 0 then Out(b, [])
    else
      var p := Parent(c);
      if c == Left(p) && b[Right(p)] then
        var r := Visit(b, ls, Right(p));
        Prefix(r.leaves, Up(r.buf, ls, p))
      else Up(b, ls, p)
  }

  /** What remains to be done when c is about to be visited */
  function Down(b: seq<bool>, ls: nat, c: nat): (o: Out)
    requires Tree(b, ls) && c < |b|
    ensures Tree(o.buf, ls)
  {
    var r := Visit(b, ls, c);
    Prefix(r.leaves, Up(r.buf, ls, c))
  }

  /** What remains when the right child of c is about to be examined */
  function FromRight(b: seq<bool>, ls: nat, c: nat): Out
    requires Tree(b, ls) && c < ls
  {
    if b[Right(c)] then Down(b, ls, Right(c)) else Up(b, ls, c)
  }

  /** What remains when the left child of c is about to be examined */
  function FromLeft(b: seq<bool>, ls: nat, c: nat): Out
    requires Tree(b, ls) && c < ls
  {
    if b[Left(c)] then Down(b, ls, Left(c)) else FromRight(b, ls, c)
  }

  lemma DownInner(b: seq<bool>, ls: nat, c: nat)
    requires Tree(b, ls) && c < ls
    ensures Down(b, ls, c) == FromLeft(b[c := false], ls, c)
  {
    var b1 := b[c := false];
    var l := if b1[Left(c)] then Visit(b1, ls, Left(c)) else Out(b1, []);
    var r := if l.buf[Right(c)] then Visit(l.buf, ls, Right(c)) else Out(l.buf, []);
    assert Parent(Left(c)) == c && Parent(Right(c)) == c;
    assert Visit(b, ls, c) == Prefix(l.leaves, r);
    var rest := Up(r.buf, ls, c);
    assert (l.leaves + r.leaves) + rest.leaves == l.leaves + (r.leaves + rest.leaves);
    if b1[Left(c)] {
      assert Up(l.buf, ls, Left(c)) == Prefix(r.leaves, rest);
    } else {
      assert [] + (r.leaves + rest.leaves) == r.leaves + rest.leaves;
    }
  }

  lemma DownLeaf(b: seq<bool>, ls: nat, c: nat)
    requires Tree(b, ls) && ls <= c < |b|
    ensures Down(b, ls, c) == Prefix([c - ls], Up(b[c := false], ls, c))
  {
  }

  /** Coming up from a child: a left one leads to the right sibling, a right one further up. */
  lemma UpIs(b: seq<bool>, ls: nat, c: nat)
    requires Tree(b, ls) && 0 < c < |b|
    ensures Parent(c) < ls
    ensures Up(b, ls, c) == if c == Left(Parent(c)) then FromRight(b, ls, Parent(c)) else Up(b, ls, Parent(c))
  {
    var p := Parent(c);
    assert Parent(Right(p)) == p;
  }

  /** The loop of the iterative gather at (prev, cur), having reported `leaves` of `all` */
  ghost predicate Remains(all: Out, b: seq<bool>, ls: nat, prev: nat, cur: nat, leaves: seq<nat>)
    requires Tree(b, ls) && prev < |b| && cur < |b|
  {
    if prev == Parent(cur) then b[cur] && all == Prefix(leaves, Down(b, ls, cur))
    else prev > 0 && cur == Parent(prev) && all == Prefix(leaves, Up(b, ls, prev))
  }

  /** The loop goes on to `next`, or ends at the root. */
  ghost predicate GoesOn(all: Out, b: seq<bool>, ls: nat, cur: nat, next: nat, leaves: seq<nat>)
    requires Tree(b, ls) && cur < |b|
  {
    if next == cur then all == Out(b, leaves) else next < |b| && Remains(all, b, ls, cur, next, leaves)
  }

  lemma GoesUp(all: Out, b: seq<bool>, ls: nat, cur: nat, leaves: seq<nat>)
    requires Tree(b, ls) && cur < |b| && all == Prefix(leaves, Up(b, ls, cur))
    ensures GoesOn(all, b, ls, cur, Parent(cur), leaves)
  {
    if cur == 0 {
      assert leaves + [] == leaves;
    } else {
      assert Parent(Parent(cur)) < cur;
    }
  }

  lemma GoesRight(all: Out, b: seq<bool>, ls: nat, cur: nat, leaves: seq<nat>)
    requires Tree(b, ls) && cur < ls && all == Prefix(leaves, FromRight(b, ls, cur))
    ensures GoesOn(all, b, ls, cur, if b[Right(cur)] then Right(cur) else Parent(cur), leaves)
  {
    if b[Right(cur)] {
      assert Parent(Right(cur)) == cur;
    } else {
      GoesUp(all, b, ls, cur, leaves);
    }
  }

  lemma StepDown(all: Out, b: seq<bool>, ls: nat, cur: nat, leaves: seq<nat>)
    requires Tree(b, ls) && cur < |b| && all == Prefix(leaves, Down(b, ls, cur))
    ensures var b1 := b[cur := false];
      if cur >= ls then GoesOn(all, b1, ls, cur, Parent(cur), leaves + [cur - ls])
      else if b1[Left(cur)] then GoesOn(all, b1, ls, cur, Left(cur), leaves)
      else GoesOn(all, b1, ls, cur, if b1[Right(cur)] then Right(cur) else Parent(cur), leaves)
  {
    var b1 := b[cur := false];
    if cur >= ls {
      DownLeaf(b, ls, cur);
      var rest := Up(b1, ls, cur);
      assert leaves + ([cur - ls] + rest.leaves) == (leaves + [cur - ls]) + rest.leaves;
      GoesUp(all, b1, ls, cur, leaves + [cur - ls]);
    } else {
      DownInner(b, ls, cur);
      if b1[Left(cur)] {
        assert Parent(Left(cur)) == cur;
      } else {
        GoesRight(all, b1, ls, cur, leaves);
      }
    }
  }

  lemma StepUp(all: Out, b: seq<bool>, ls: nat, prev: nat, cur: nat, leaves: seq<nat>)
    requires Tree(b, ls) && 0 < prev < |b| && cur == Parent(prev) && all == Prefix(leaves, Up(b, ls, prev))
    ensures cur < ls
    ensures GoesOn(all, b, ls, cur, if prev == Left(cur) && b[Right(cur)] then Right(cur) else Parent(cur), leaves)
  {
    UpIs(b, ls, prev);
    if prev == Left(cur) {
      GoesRight(all, b, ls, cur, leaves);
    } else {
      GoesUp(all, b, ls, cur, leaves);
    }
  }

  /** The flags that are set */
  function Count(b: seq<bool>): nat {
    if b == [] then 0 else (if b[0] then 1 else 0) + Count(b[1..])
  }

  lemma {:induction false} CountClear(b: seq<bool>, i: nat)
    requires i < |b| && b[i]
    ensures Count(b[i := false]) == Count(b) - 1
  {
    if i > 0 {
      assert b[i := false][1..] == b[1..][i - 1 := false];
      CountClear(b[1..], i - 1);
    } else {
      assert b[i := false][1..] == b[1..];
    }
  }

  // ---------------------------------------------------------------------------
  // Marking and growing

  /** FlagtreeMark from node j up to the root */
  function MarkPath(b: seq<bool>, j: nat): (b': seq<bool>)
    requires j < |b|
    ensures |b'| == |b|
    decreases j
  {
    var b1 := b[j := true];
    if j == 0 then b1 else MarkPath(b1, Parent(j))
  }

  /** x is j or above it. */
  predicate Above(x: nat, j: nat)
    decreases j
  {
    x == j || (j > 0 && Above(x, Parent(j)))
  }

  lemma {:induction false} MarkExact(b: seq<bool>, j: nat)
    requires j < |b|
    ensures forall x :: 0 <= x < |b| ==> MarkPath(b, j)[x] == (b[x] || Above(x, j))
    decreases j
  {
    if j > 0 {
      MarkExact(b[j := true], Parent(j));
    }
  }

  lemma {:induction false} AboveUp(x: nat, j: nat)
    requires Above(x, j)
    ensures Above(Parent(x), j)
    decreases j
  {
    if x != j {
      AboveUp(x, Parent(j));
    } else {
      assert j > 0 ==> Above(Parent(j), Parent(j));
    }
  }

  lemma {:induction false} LeafAboveNone(x: nat, j: nat, ls: nat)
    requires x >= ls && j <= 2 * ls && Above(x, j)
    ensures x == j
    decreases j
  {
    if x != j {
      LeafAboveNone(x, Parent(j), ls);
    }
  }

  /** Marking leaf l keeps the tree up-closed and adds l, and only l, to the marked leaves. */
  lemma MarkAddsLeaf(b: seq<bool>, ls: nat, l: nat)
    requires Tree(b, ls) && l + ls < |b|
    ensures UpClosed(b) ==> UpClosed(MarkPath(b, l + ls))
    ensures forall n: nat :: Marked(MarkPath(b, l + ls), ls, n) == (Marked(b, ls, n) || n == l)
  {
    var j := l + ls;
    MarkExact(b, j);
    forall x: nat | 0 < x < |b| && Above(x, j) ensures Above(Parent(x), j) {
      AboveUp(x, j);
    }
    forall n: nat ensures Marked(MarkPath(b, j), ls, n) == (Marked(b, ls, n) || n == l) {
      if n + ls < |b| && Above(n + ls, j) {
        LeafAboveNone(n + ls, j, ls);
      }
    }
  }

  function AllClear(h: nat): seq<bool> { seq(Nodes(h), i => false) }

  /** FlagtreeGrow after the first n leaves of b have been carried over */
  function Regrown(b: seq<bool>, h: nat, n: nat): (b': seq<bool>)
    requires Tree(b, LeafStart(h)) && n <= Pow2(h)
    ensures Tree(b', LeafStart(h + 1))
  {
    if n == 0 then AllClear(h + 1)
    else
      var b1 := Regrown(b, h, n - 1);
      if b[n - 1 + LeafStart(h)] then MarkPath(b1, n - 1 + LeafStart(h + 1)) else b1
  }

  /** b' has the first n leaves of b, marked as in b, and no other. */
  ghost predicate Carried(b: seq<bool>, ls: nat, b': seq<bool>, ls': nat, n: nat) {
    forall l: nat :: Marked(b', ls', l) == (l < n && Marked(b, ls, l))
  }

  lemma {:induction false} RegrownLeaves(b: seq<bool>, h: nat, n: nat)
    requires Tree(b, LeafStart(h)) && n <= Pow2(h)
    ensures UpClosed(Regrown(b, h, n))
    ensures Carried(b, LeafStart(h), Regrown(b, h, n), LeafStart(h + 1), n)
  {
    if n > 0 {
      RegrownLeaves(b, h, n - 1);
      assert Marked(b, LeafStart(h), n - 1) == b[n - 1 + LeafStart(h)];
      var b1, ls, ls' := Regrown(b, h, n - 1), LeafStart(h), LeafStart(h + 1);
      MarkAddsLeaf(b1, ls', n - 1);
      assert Regrown(b, h, n) == if Marked(b, ls, n - 1) then MarkPath(b1, n - 1 + ls') else b1;
      forall l: nat ensures Marked(Regrown(b, h, n), ls', l) == (l < n && Marked(b, ls, l)) {
        assert Marked(b1, ls', l) == (l < n - 1 && Marked(b, ls, l));
      }
    }
  }

  /** Growing keeps exactly the marked leaves, and the result is up-closed whatever the old tree was. */
  lemma GrowKeepsLeaves(b: seq<bool>, h: nat)
    requires Tree(b, LeafStart(h))
    ensures var b', ls, ls' := Regrown(b, h, Pow2(h)), LeafStart(h), LeafStart(h + 1);
      UpClosed(b') && forall l: nat :: Marked(b', ls', l) == Marked(b, ls, l)
  {
    RegrownLeaves(b, h, Pow2(h));
  }

  // ---------------------------------------------------------------------------
  // The tree as an object

  class FlagTree {
    var height: nat
    var buf: array<bool>

    ghost predicate Valid()
      reads this
    {
      buf.Length == Nodes(height)
    }

    /** FlagtreeInit */
    constructor (h: nat)
      ensures Valid() && height == h && buf[..] == AllClear(h) && fresh(buf)
    {
      height := h;
      buf := new bool[Nodes(h)](i => false);
    }

    /** FlagtreeMark */
    method Mark(idx: nat)
      requires Valid() && idx < Pow2(height)
      modifies buf
      ensures buf[..] == MarkPath(old(buf[..]), idx + LeafStart(height))
    {
      var j := idx + LeafStart(height);
      ghost var b0 := buf[..];
      buf[j] := true;
      assert buf[..] == b0[j := true] && b0[j := true][j := true] == b0[j := true];
      while j != 0
        invariant j < buf.Length && buf[j]
        invariant MarkPath(old(buf[..]), idx + LeafStart(height)) == MarkPath(buf[..], j)
      {
        ghost var b := buf[..];
        assert b[j := true] == b && b[j];
        j := Parent(j);
        buf[j] := true;
        assert buf[..] == b[j := true];
        assert b[j := true][j := true] == b[j := true];
      }
      assert buf[..][0 := true] == buf[..];
    }

    /** Visit; the reported leaves are returned in the order of the callbacks. */
    method VisitNode(i: nat) returns (count: nat, leaves: seq<nat>)
      requires Valid() && i < buf.Length
      modifies buf
      ensures var o := Visit(old(buf[..]), LeafStart(height), i);
        buf[..] == o.buf && leaves == o.leaves && count == |o.leaves|
      decreases buf.Length - i
    {
      ghost var b := buf[..];
      buf[i] := false;
      ghost var b1 := buf[..];
      assert b1 == b[i := false];
      if i < LeafStart(height) {
        count, leaves := 0, [];
        if buf[Left(i)] {
          count, leaves := VisitNode(Left(i));
        }
        assert buf[..][Right(i)] == buf[Right(i)];
        if buf[Right(i)] {
          var c, ls := VisitNode(Right(i));
          count, leaves := count + c, leaves + ls;
        }
      } else {
        count, leaves := 1, [i - LeafStart(height)];
      }
    }

    /** FlagtreeGatherRec */
    method GatherRecursively() returns (count: nat, leaves: seq<nat>)
      requires Valid()
      modifies buf
      ensures var o := GatherRec(old(buf[..]), LeafStart(height));
        buf[..] == o.buf && leaves == o.leaves && count == |o.leaves|
    {
      if buf[0] {
        count, leaves := VisitNode(0);
      } else {
        count, leaves := 0, [];
      }
    }

    /** FlagtreeGather does the same with a loop. */
    method Gather() returns (count: nat, leaves: seq<nat>)
      requires Valid()
      modifies buf
      ensures var o := GatherRec(old(buf[..]), LeafStart(height));
        buf[..] == o.buf && leaves == o.leaves && count == |o.leaves|
    {
      count, leaves := 0, [];
      if !buf[0] { return; }
      var ls := LeafStart(height);
      ghost var all := GatherRec(buf[..], ls);
      var prev: nat, cur: nat, more := 0, 0, true;
      while more
        invariant cur < buf.Length && prev < buf.Length && count == |leaves|
        invariant more ==> Remains(all, buf[..], ls, prev, cur, leaves)
        invariant !more ==> all == Out(buf[..], leaves)
        decreases Count(buf[..]), if !more then 0 else if prev == Parent(cur) then 1 else 2 + cur
      {
        ghost var b, reported := buf[..], leaves;
        var next := Parent(cur);
        if prev == Parent(cur) {
          CountClear(b, cur);
          buf[cur] := false;
          assert buf[..] == b[cur := false];
          if cur >= ls {
            leaves, count := leaves + [cur - ls], count + 1;
          } else if buf[Left(cur)] {
            next := Left(cur);
          } else if buf[Right(cur)] {
            next := Right(cur);
          }
          StepDown(all, b, ls, cur, reported);
        } else {
          if prev == Left(cur) && buf[Right(cur)] {
            next := Right(cur);
          }
          StepUp(all, b, ls, prev, cur, leaves);
        }
        prev, cur := cur, next;
        more := cur != prev;
      }
    }

    /** FlagtreeGrow */
    method Grow()
      requires Valid()
      modifies this
      ensures Valid() && height == old(height) + 1 && fresh(buf)
      ensures buf[..] == Regrown(old(buf[..]), old(height), Pow2(old(height)))
    {
      var oldHeight, oldBuf := height, buf;
      ghost var b := buf[..];
      height := height + 1;
      buf := new bool[Nodes(height)](i => false);
      assert buf[..] == AllClear(height);
      var i := 0;
      while i < Pow2(oldHeight)
        invariant Valid() && height == oldHeight + 1 && fresh(buf) && i <= Pow2(oldHeight)
        invariant oldBuf[..] == b
        invariant buf[..] == Regrown(b, oldHeight, i)
      {
        assert oldBuf[i + LeafStart(oldHeight)] == b[i + LeafStart(oldHeight)];
        if oldBuf[i + LeafStart(oldHeight)] {
          Mark(i);
        }
        i := i + 1;
      }
    }
  }
}
