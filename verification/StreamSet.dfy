/**
  Sets of stream descriptors (streamset.c): a circular list with a handle to its last element, and
  an iterator that appends and removes while it runs.
 */
module StreamSet {
  // ---------------------------------------------------------------------------
  // What an iteration does, on sequences

  /**
    An iteration over `elems`: the first `pos` elements have been passed; `live` says that the
    last one returned may still be removed. `visited` (elements returned), `keep` (which of them
    are still in the set) and `added` are history.
   */
  datatype Walk<T> = Walk(elems: seq<T>, pos: nat, live: bool, visited: seq<T>, keep: seq<bool>, added: seq<T>)

  datatype Op<T> = Next | Append(x: T) | Remove

  function Start<T>(elems: seq<T>): Walk<T> { Walk(elems, 0, false, [], [], []) }

  /** Append needs a non-empty set and a new element, Remove an element that Next has just returned. */
  predicate Allowed<T(==)>(w: Walk<T>, op: Op<T>) {
    match op
    case Next => w.pos < |w.elems|
    case Append(x) => w.elems != [] && x !in w.elems
    case Remove => w.live && 0 < w.pos <= |w.elems| && 0 < |w.keep|
  }

  function Step<T>(w: Walk<T>, op: Op<T>): Walk<T>
    requires Allowed(w, op)
  {
    match op
    case Next => w.(pos := w.pos + 1, live := true, visited := w.visited + [w.elems[w.pos]], keep := w.keep + [true])
    case Append(x) => w.(elems := w.elems + [x], added := w.added + [x])
    case Remove => w.(elems := Without(w.elems, w.pos - 1), pos := w.pos - 1, live := false, keep := w.keep[|w.keep| - 1 := false])
  }

  function Without<T>(s: seq<T>, i: nat): (r: seq<T>)
    requires i < |s|
    ensures |r| == |s| - 1
    ensures forall j :: 0 <= j < |r| ==> r[j] == if j < i then s[j] else s[j + 1]
  {
    s[..i] + s[i + 1..]
  }

  /** The visited elements that are kept */
  function Kept<T>(s: seq<T>, keep: seq<bool>): seq<T>
    requires |s| == |keep|
  {
    if s == [] then [] else
    var n := |s| - 1;
    Kept(s[..n], keep[..n]) + if keep[n] then [s[n]] else []
  }

  ghost predicate Distinct<T>(s: seq<T>) {
    forall i, j :: 0 <= i < j < |s| ==> s[i] != s[j]
  }

  /** Every element, old or appended, is visited once and in order; what lies behind is what was kept. */
  ghost predicate WalkOk<T>(start: seq<T>, w: Walk<T>) {
    && Distinct(w.elems) && w.pos <= |w.elems| && |w.visited| == |w.keep|
    && w.visited + w.elems[w.pos..] == start + w.added
    && w.elems[..w.pos] == Kept(w.visited, w.keep)
    && (w.live ==> w.pos > 0 && |w.visited| > 0 && w.keep[|w.keep| - 1])
  }

  lemma NextOk<T>(start: seq<T>, w: Walk<T>)
    requires WalkOk(start, w) && Allowed(w, Next)
    ensures WalkOk(start, Step(w, Next))
  {
    var w' := Step(w, Next);
    assert w.elems[w.pos..] == [w.elems[w.pos]] + w.elems[w.pos + 1..];
    assert w'.visited[..|w.visited|] == w.visited && w'.keep[..|w.keep|] == w.keep;
    assert w'.elems[..w'.pos] == w.elems[..w.pos] + [w.elems[w.pos]];
  }

  lemma AppendOk<T>(start: seq<T>, w: Walk<T>, x: T)
    requires WalkOk(start, w) && x !in w.elems
    ensures WalkOk(start, w.(elems := w.elems + [x], added := w.added + [x]))
  {
    assert (w.elems + [x])[w.pos..] == w.elems[w.pos..] + [x];
    assert (w.elems + [x])[..w.pos] == w.elems[..w.pos];
    assert w.visited + (w.elems[w.pos..] + [x]) == (w.visited + w.elems[w.pos..]) + [x];
    assert start + (w.added + [x]) == (start + w.added) + [x];
  }

  lemma RemoveOk<T>(start: seq<T>, w: Walk<T>)
    requires WalkOk(start, w) && Allowed(w, Remove)
    ensures WalkOk(start, Step(w, Remove))
  {
    var w', n := Step(w, Remove), |w.visited| - 1;
    assert w'.keep[..n] == w.keep[..n];
    assert w.elems[..w.pos] == Kept(w.visited[..n], w.keep[..n]) + [w.visited[n]];
    assert w'.elems[..w'.pos] == w.elems[..w.pos][..w.pos - 1];
    assert w'.elems[w'.pos..] == w.elems[w.pos..];
  }

  ghost predicate IsRun<T>(start: seq<T>, ops: seq<Op<T>>, walks: seq<Walk<T>>) {
    && |walks| == |ops| + 1 && walks[0] == Start(start) && Distinct(start)
    && forall i :: 0 <= i < |ops| ==> Allowed(walks[i], ops[i]) && walks[i + 1] == Step(walks[i], ops[i])
  }

  lemma {:induction false} RunOk<T>(start: seq<T>, ops: seq<Op<T>>, walks: seq<Walk<T>>, i: nat)
    requires IsRun(start, ops, walks) && i < |walks|
    ensures WalkOk(start, walks[i])
  {
    if i > 0 {
      RunOk(start, ops, walks, i - 1);
      match ops[i - 1]
      case Next => NextOk(start, walks[i - 1]);
      case Append(x) => AppendOk(start, walks[i - 1], x);
      case Remove => RemoveOk(start, walks[i - 1]);
    }
  }

  /**
    Any mixture of Next, Append and Remove: elements are returned in order, those of the original
    set first and then the appended ones, each exactly once; when none is left all have been
    returned, and the set is what was kept of them.
   */
  lemma EveryElementOnce<T>(start: seq<T>, ops: seq<Op<T>>, walks: seq<Walk<T>>, i: nat)
    requires IsRun(start, ops, walks) && i < |walks|
    ensures var w := walks[i];
      && Distinct(w.elems) && |w.visited| == |w.keep|
      && w.visited <= start + w.added
      && (w.pos >= |w.elems| ==> w.visited == start + w.added && w.elems == Kept(start + w.added, w.keep))
  {
    RunOk(start, ops, walks, i);
    var w := walks[i];
    assert w.visited == (start + w.added)[..|w.visited|];
    if w.pos >= |w.elems| {
      assert w.elems[w.pos..] == [] && w.elems[..w.pos] == w.elems;
      assert w.visited + [] == w.visited;
    }
  }

  // The same, told from the operations alone

  /** The elements appended, in order */
  function Appended<T>(ops: seq<Op<T>>): seq<T> {
    if ops == [] then []
    else Appended(ops[..|ops| - 1]) + match ops[|ops| - 1] case Append(x) => [x] case _ => []
  }

  /** For each Next, whether no Remove followed it before the following Next */
  function Keeps<T>(ops: seq<Op<T>>): seq<bool> {
    if ops == [] then []
    else
      var k := Keeps(ops[..|ops| - 1]);
      match ops[|ops| - 1]
      case Next => k + [true]
      case Append(_) => k
      case Remove => if k == [] then [] else k[|k| - 1 := false]
  }

  lemma {:induction false} HistoryIsOps<T>(start: seq<T>, ops: seq<Op<T>>, walks: seq<Walk<T>>, i: nat)
    requires IsRun(start, ops, walks) && i < |walks|
    ensures walks[i].added == Appended(ops[..i]) && walks[i].keep == Keeps(ops[..i])
  {
    if i > 0 {
      HistoryIsOps(start, ops, walks, i - 1);
      assert ops[..i][..i - 1] == ops[..i - 1] && ops[..i][i - 1] == ops[i - 1];
      assert walks[i] == Step(walks[i - 1], ops[i - 1]);
    }
  }

  /**
    After any operations, with `all` the original elements and then the appended ones: the k-th Next has
    returned all[k], and the set is what no Remove has taken of these, followed by the rest of `all`.
   */
  lemma IterationByOps<T>(start: seq<T>, ops: seq<Op<T>>, walks: seq<Walk<T>>, i: nat)
    requires IsRun(start, ops, walks) && i < |walks|
    ensures var all, keep := start + Appended(ops[..i]), Keeps(ops[..i]);
      && |keep| <= |all| && walks[i].visited == all[..|keep|]
      && walks[i].elems == Kept(all[..|keep|], keep) + all[|keep|..]
  {
    HistoryIsOps(start, ops, walks, i);
    RunOk(start, ops, walks, i);
    var w, all := walks[i], start + Appended(ops[..i]);
    assert w.visited == all[..|w.visited|] && w.elems[w.pos..] == all[|w.visited|..];
    assert w.elems == w.elems[..w.pos] + w.elems[w.pos..];
  }

  // ---------------------------------------------------------------------------
  // The circular list

  /** lpel_stream_desc_t, as far as sets go */
  class Node {
    var next: Node?

    constructor () { next := null; }
  }

  function Succ(i: nat, n: nat): nat { if i + 1 == n then 0 else i + 1 }

  /** The next pointers of elems make a ring. */
  ghost predicate Ring(elems: seq<Node>)
    reads elems
  {
    forall i :: 0 <= i < |elems| ==> elems[i].next == elems[Succ(i, |elems|)]
  }

  function Pred(i: nat, n: nat): int { if i == 0 then n - 1 else i - 1 }

  lemma DistinctWithout<T>(s: seq<T>, i: nat)
    requires Distinct(s) && i < |s|
    ensures Distinct(Without(s, i)) && s[i] !in Without(s, i)
  {
  }

  /** The neighbours after element i is taken out: only its predecessor gets another successor. */
  lemma WithoutSucc<T>(s: seq<T>, i: nat, j: nat)
    requires i < |s| && j + 1 < |s|
    ensures var r, n, k := Without(s, i), |s|, if j < i then j else j + 1;
      && r[j] == s[k] && k != i
      && r[Succ(j, |r|)] == s[Succ(if k == Pred(i, n) then i else k, n)]
  {
  }

  /** The iteration order after the handle has been set to element i. */
  function Rotated<T>(s: seq<T>, i: nat): seq<T>
    requires i < |s|
  {
    s[i + 1..] + s[..i + 1]
  }

  /** Where element k of s is in Rotated(s, i) */
  function RotatedPosition(k: nat, i: nat, n: nat): int { if k > i then k - i - 1 else k - i - 1 + n }

  lemma RotatedHandle<T>(s: seq<T>, i: nat)
    requires Distinct(s) && i < |s|
    ensures var r := Rotated(s, i); Distinct(r) && |r| == |s| && r[|r| - 1] == s[i]
  {
  }

  lemma RotatedAt<T>(s: seq<T>, i: nat, k: nat)
    requires i < |s| && k < |s|
    ensures Rotated(s, i)[RotatedPosition(k, i, |s|)] == s[k]
  {
  }

  /** Neighbours stay neighbours. */
  lemma RotatedSucc<T>(s: seq<T>, i: nat, j: nat)
    requires i < |s| && j < |s|
    ensures var k := if j + i + 1 < |s| then j + i + 1 else j + i + 1 - |s|;
      Rotated(s, i)[j] == s[k] && Rotated(s, i)[Succ(j, |s|)] == s[Succ(k, |s|)]
  {
  }

  /** The same elements in the same cyclic order; iteration starts after element i and ends with it. */
  lemma RotatedStartsAfter<T>(s: seq<T>, i: nat, k: nat)
    requires Distinct(s) && i < |s| && k < |s|
    ensures var r, p := Rotated(s, i), RotatedPosition(k, i, |s|);
      && multiset(r) == multiset(s) && Distinct(r) && |r| == |s|
      && r[0] == s[Succ(i, |s|)] && r[|r| - 1] == s[i]
      && 0 <= p < |r| && r[p] == s[k] && r[Succ(p, |s|)] == s[Succ(k, |s|)]
  {
    RotatedHandle(s, i);
    RotatedSame(s, i);
    RotatedAt(s, i, k);
    RotatedSucc(s, i, RotatedPosition(k, i, |s|));
  }

  lemma RotatedSame<T>(s: seq<T>, i: nat)
    requires i < |s|
    ensures multiset(Rotated(s, i)) == multiset(s)
  {
    assert s == s[..i + 1] + s[i + 1..];
  }

  class Set {
    var last: Node?
    ghost var elems: seq<Node>

    ghost predicate Valid()
      reads this, elems
    {
      && Distinct(elems)
      && (last == null <==> elems == [])
      && (elems != [] ==> last == elems[|elems| - 1])
      && Ring(elems)
    }

    constructor ()
      ensures Valid() && elems == []
    {
      last, elems := null, [];
    }

    /** Inserts node between the last and the first element and makes it the last. */
    method LinkLast(node: Node)
      requires Valid() && elems != [] && node !in elems
      modifies this, node, last
      ensures Valid() && elems == old(elems) + [node]
    {
      assert last == elems[|elems| - 1];
      node.next := last.next;
      last.next := node;
      last := node;
      elems := elems + [node];
    }

    /** Takes cur, element i and not the only one, out of the ring; prev stands before it. */
    method Unlink(prev: Node, cur: Node, ghost i: nat)
      requires Valid() && |elems| > 1 && i < |elems| && cur == elems[i] && prev == elems[Pred(i, |elems|)]
      modifies this, prev, cur
      ensures Valid() && elems == Without(old(elems), i)
    {
      DistinctWithout(elems, i);
      ghost var r := Without(elems, i);
      prev.next := cur.next;
      cur.next := null;
      forall j | 0 <= j < |r| ensures r[j].next == r[Succ(j, |r|)] {
        WithoutSucc(elems, i, j);
      }
      if last == cur {
        last := prev;
      }
      elems := r;
    }

    /** LpelStreamsetPut */
    method Put(node: Node)
      requires Valid() && node !in elems
      modifies this, node, last
      ensures Valid() && elems == old(elems) + [node]
    {
      if last == null {
        last := node;
        node.next := node;
        elems := [node];
      } else {
        LinkLast(node);
      }
    }

    /** The assignment of node, element i, to the handle at the end of LpelStreamPoll */
    method Rotate(node: Node, ghost i: nat)
      requires Valid() && i < |elems| && node == elems[i]
      modifies this
      ensures Valid() && elems == Rotated(old(elems), i)
    {
      RotatedHandle(elems, i);
      last := node;
      forall j | 0 <= j < |elems| ensures Rotated(elems, i)[j].next == Rotated(elems, i)[Succ(j, |elems|)] {
        RotatedSucc(elems, i, j);
      }
      elems := Rotated(elems, i);
    }

    /** LpelStreamsetIsEmpty */
    predicate IsEmpty()
      reads this
    {
      last == null
    }

    /** LpelStreamsetRemove; r says that node was found. */
    method Remove(node: Node) returns (r: bool, ghost at: nat)
      requires Valid() && elems != []
      modifies this, elems
      ensures Valid()
      ensures r <==> node in old(elems)
      ensures !r ==> elems == old(elems)
      ensures r ==> at < |old(elems)| && old(elems)[at] == node && elems == Without(old(elems), at)
    {
      var prev, cur := last, last;
      at := |elems| - 1;
      ghost var n, i := |elems|, 0;
      prev := cur;
      cur := cur.next;
      while cur != node && cur != last
        invariant i < n && cur == elems[i] && prev == elems[Pred(i, n)]
        invariant forall j :: 0 <= j < i ==> elems[j] != node
        decreases n - i
      {
        prev := cur;
        cur := cur.next;
        i := i + 1;
      }
      at := i;
      if cur != node { return false, at; }
      r := true;
      if prev == cur {
        last := null;
        elems := [];
      } else {
        Unlink(prev, cur, i);
      }
    }
  }

  // ---------------------------------------------------------------------------
  // The iterator

  /** cur and prev stand where the walk is, over a ring whose last element is `last`. */
  ghost predicate Stands(w: Walk<Node>, cur: Node?, prev: Node?, last: Node?) {
    && w.pos <= |w.elems|
    && (w.live ==> w.pos > 0 && prev == w.elems[Pred(w.pos - 1, |w.elems|)])
    && (!w.live && w.elems != [] && w.pos == 0 ==> cur == null && prev == last)
    && (w.pos > 0 ==> cur == w.elems[w.pos - 1])
  }

  /** The last element of a sequence, as the handle names it */
  ghost function LastOf(elems: seq<Node>): Node? {
    if elems == [] then null else elems[|elems| - 1]
  }

  /** Where the iterator stands after the current element is removed. */
  lemma RemoveStands(w: Walk<Node>, cur: Node?, prev: Node?)
    requires Distinct(w.elems) && Stands(w, cur, prev, LastOf(w.elems)) && Allowed(w, Remove)
    ensures prev == cur <==> |w.elems| == 1
    ensures var w' := Step(w, Remove);
      && w'.elems == Without(w.elems, w.pos - 1)
      && Stands(w', if prev == LastOf(w.elems) then null else prev, prev, LastOf(w'.elems))
      && (|w.elems| == 1 ==> w'.elems == [] && w'.pos == 0)
  {
  }

  class Iterator {
    var cur: Node?
    var prev: Node?
    var set_: Set
    ghost var walk: Walk<Node>

    /** cur and prev stand where the walk is. */
    ghost predicate Valid()
      reads this, set_, set_.elems
    {
      set_.Valid() && walk.elems == set_.elems && Stands(walk, cur, prev, set_.last)
    }

    /** LpelStreamIterCreate for a given set */
    constructor (s: Set)
      requires s.Valid()
      ensures Valid() && set_ == s && walk == Start(s.elems)
    {
      prev, set_, cur := s.last, s, null;
      walk := Start(s.elems);
    }

    /** LpelStreamIterReset */
    method Reset(s: Set)
      requires s.Valid()
      modifies this
      ensures Valid() && set_ == s && walk == Start(s.elems)
    {
      prev, set_, cur := s.last, s, null;
      walk := Start(s.elems);
    }

    /** LpelStreamIterHasNext */
    predicate HasNext()
      reads this, set_
    {
      set_.last != null && (cur != set_.last || cur == null)
    }

    lemma HasNextIff()
      requires Valid()
      ensures HasNext() <==> Allowed(walk, Next)
    {
    }

    /** LpelStreamIterNext */
    method GetNext() returns (node: Node)
      requires Valid() && HasNext()
      modifies this
      ensures Valid() && set_ == old(set_)
      ensures Allowed(old(walk), Next) && walk == Step(old(walk), Next) && node == old(walk).elems[old(walk).pos]
      ensures cur == node && set_.elems == old(set_.elems) && walk.visited == old(walk).visited + [node]
    {
      HasNextIff();
      if cur != null {
        prev := cur;
        cur := cur.next;
      } else {
        cur := prev.next;
      }
      walk := Step(walk, Next);
      node := cur;
    }

    /** LpelStreamIterAppend */
    method AppendNode(node: Node)
      requires Valid() && Allowed(walk, Append(node))
      modifies this, set_, node, set_.last
      ensures Valid() && set_ == old(set_) && walk == Step(old(walk), Append(node))
      ensures set_.elems == old(set_.elems) + [node]
    {
      var oldLast := set_.last;
      set_.LinkLast(node);
      if prev == oldLast {
        prev := node;
      }
      if prev == cur {
        prev := node;
      }
      walk := Step(walk, Append(node));
    }

    /** LpelStreamIterRemove */
    method RemoveCurrent()
      requires Valid() && Allowed(walk, Remove)
      modifies this, set_, prev, cur
      ensures Valid() && set_ == old(set_) && walk == Step(old(walk), Remove)
      ensures var i := old(walk).pos - 1; old(set_.elems)[i] == old(cur) && set_.elems == Without(old(set_.elems), i)
    {
      RemoveStands(walk, cur, prev);
      if prev == cur {
        assert prev == set_.last;
        cur.next := null;
        set_.last := null;
        set_.elems := [];
      } else {
        var first := set_.last == prev;
        set_.Unlink(prev, cur, walk.pos - 1);
        cur := if first then null else prev;
      }
      walk := Step(walk, Remove);
    }
  }
}
