/**
  The ready queue of the hierarchical scheduler (hrc_taskqueue.c): a binary heap in an array
  whose slot 0 is unused, ordered by validity first and priority second.
 */
module TaskQueue {

  type TaskId = nat

  /** The part of sched_info the queue compares. Priorities are integers. */
  datatype Info = Info(prio: int, valid: bool)

  type Table = map<TaskId, Info>

  /** sched_info of a task; every task of a queue is in the table. */
  function Key(info: Table, t: TaskId): Info {
    if t in info then info[t] else Info(0, false)
  }

  /** comparePrior, for a configuration without rts_prio_cmp */
  function Compare(a: Info, b: Info): int {
    var valid := AsInt(a.valid) - AsInt(b.valid);
    if valid != 0 then valid
    else if !a.valid then 0
    else a.prio - b.prio
  }

  function AsInt(b: bool): int { if b then 1 else 0 }

  predicate Geq(info: Table, t: TaskId, u: TaskId) {
    Compare(Key(info, t), Key(info, u)) >= 0
  }

  /** What the comparison means: an invalid task ranks below every valid one, and valid ones rank by priority. */
  lemma GeqIff(info: Table, t: TaskId, u: TaskId)
    ensures Geq(info, t, u) <==> !Key(info, u).valid || (Key(info, t).valid && Key(info, t).prio >= Key(info, u).prio)
  {
  }

  /** t ranks at the top of h: if any task there is valid, t is, and no valid one has a higher priority. */
  ghost predicate Tops(h: seq<TaskId>, info: Table, t: TaskId) {
    forall u :: u in h && Key(info, u).valid ==> Key(info, t).valid && Key(info, t).prio >= Key(info, u).prio
  }

  // Positions count from 1, as in the array: task number pos of h is h[pos - 1].

  function Parent(pos: nat): nat { pos / 2 }

  function Swap(h: seq<TaskId>, i: nat, j: nat): seq<TaskId>
    requires 1 <= i <= |h| && 1 <= j <= |h|
  {
    h[i - 1 := h[j - 1]][j - 1 := h[i - 1]]
  }

  /** upHeap */
  function SiftUp(h: seq<TaskId>, pos: nat, info: Table): (r: seq<TaskId>)
    requires 1 <= pos <= |h|
    ensures |r| == |h|
    decreases pos
  {
    var parent := Parent(pos);
    if parent >= 1 && Compare(Key(info, h[pos - 1]), Key(info, h[parent - 1])) > 0 then
      SiftUp(Swap(h, pos, parent), parent, info)
    else h
  }

  /** The child of pos that downHeap compares with. */
  function LargerChild(h: seq<TaskId>, pos: nat, info: Table): (child: nat)
    requires 1 <= pos && 2 * pos <= |h|
    ensures Parent(child) == pos && child <= |h|
    ensures forall c :: 1 <= c <= |h| && Parent(c) == pos ==> Geq(info, h[child - 1], h[c - 1])
  {
    var child := 2 * pos;
    if child + 1 <= |h| && Compare(Key(info, h[child - 1]), Key(info, h[child])) < 0 then child + 1 else child
  }

  /** downHeap */
  function SiftDown(h: seq<TaskId>, pos: nat, info: Table): (r: seq<TaskId>)
    requires 1 <= pos <= |h|
    ensures |r| == |h|
    decreases |h| - pos
  {
    if 2 * pos > |h| then h
    else
      var child := LargerChild(h, pos, info);
      if Compare(Key(info, h[pos - 1]), Key(info, h[child - 1])) >= 0 then h
      else SiftDown(Swap(h, pos, child), child, info)
  }

  /** LpelTaskqueuePush: an invalid task is left in the last position. */
  function Push(h: seq<TaskId>, t: TaskId, info: Table): seq<TaskId> {
    var h' := h + [t];
    if Key(info, t).valid then SiftUp(h', |h'|, info) else h'
  }

  /** Moves the last task to position pos, then sifts down from the top. */
  function Replace(h: seq<TaskId>, pos: nat, info: Table): seq<TaskId>
    requires 1 <= pos <= |h|
  {
    var h' := h[pos - 1 := h[|h| - 1]][..|h| - 1];
    if h' == [] then [] else SiftDown(h', 1, info)
  }

  /** LpelTaskqueuePop without the returned head */
  function RemoveHead(h: seq<TaskId>, info: Table): seq<TaskId>
    requires h != []
  {
    Replace(h, 1, info)
  }

  /** searchItem */
  function Search(h: seq<TaskId>, t: TaskId): (pos: int)
    ensures t in h ==> 1 <= pos <= |h| && h[pos - 1] == t && t !in h[..pos - 1]
    ensures t !in h ==> pos == -1
  {
    SearchFrom(h, t, 1)
  }

  function SearchFrom(h: seq<TaskId>, t: TaskId, i: nat): (pos: int)
    requires 1 <= i <= |h| + 1 && t !in h[..i - 1]
    ensures t in h ==> 1 <= pos <= |h| && h[pos - 1] == t && t !in h[..pos - 1]
    ensures t !in h ==> pos == -1
    decreases |h| - i
  {
    if i > |h| then -1
    else if h[i - 1] == t then i
    else SearchFrom(h, t, i + 1)
  }

  /** LpelTaskqueueOccupyTask */
  function Occupy(h: seq<TaskId>, t: TaskId, info: Table): seq<TaskId>
    requires t in h
  {
    Replace(h, Search(h, t), info)
  }

  function SetPrio(info: Table, t: TaskId, np: int): Table {
    info[t := Key(info, t).(prio := np)]
  }

  /** LpelTaskqueueUpdatePriority: the queue for the table with t's new priority */
  function UpdatePriority(h: seq<TaskId>, t: TaskId, np: int, info: Table): seq<TaskId>
    requires t in h
  {
    var p := Key(info, t).prio;
    var info' := SetPrio(info, t, np);
    if np < p || !Key(info, t).valid then SiftDown(h, Search(h, t), info')
    else if np > p then SiftUp(h, Search(h, t), info')
    else h
  }

  // ---------------------------------------------------------------------------
  // No task is lost or duplicated

  lemma SwapKeeps(h: seq<TaskId>, i: nat, j: nat)
    requires 1 <= i <= |h| && 1 <= j <= |h|
    ensures multiset(Swap(h, i, j)) == multiset(h)
  {
  }

  lemma {:induction false} SiftUpKeeps(h: seq<TaskId>, pos: nat, info: Table)
    requires 1 <= pos <= |h|
    ensures multiset(SiftUp(h, pos, info)) == multiset(h)
    decreases pos
  {
    var parent := Parent(pos);
    if parent >= 1 && Compare(Key(info, h[pos - 1]), Key(info, h[parent - 1])) > 0 {
      SwapKeeps(h, pos, parent);
      SiftUpKeeps(Swap(h, pos, parent), parent, info);
    }
  }

  lemma {:induction false} SiftDownKeeps(h: seq<TaskId>, pos: nat, info: Table)
    requires 1 <= pos <= |h|
    ensures multiset(SiftDown(h, pos, info)) == multiset(h)
    decreases |h| - pos
  {
    if 2 * pos <= |h| {
      var child := LargerChild(h, pos, info);
      SwapKeeps(h, pos, child);
      SiftDownKeeps(Swap(h, pos, child), child, info);
    }
  }

  lemma PushKeeps(h: seq<TaskId>, t: TaskId, info: Table)
    ensures multiset(Push(h, t, info)) == multiset(h) + multiset{t}
  {
    var h' := h + [t];
    SiftUpKeeps(h', |h'|, info);
  }

  /** Replace drops exactly one occurrence of the task at pos. */
  lemma ReplaceKeeps(h: seq<TaskId>, pos: nat, info: Table)
    requires 1 <= pos <= |h|
    ensures multiset(Replace(h, pos, info)) == multiset(h) - multiset{h[pos - 1]}
  {
    var last := |h| - 1;
    var h1 := Swap(h, pos, |h|);
    assert h1 == h1[..last] + [h1[last]];
    assert h[pos - 1 := h[last]][..last] == h1[..last];
    SwapKeeps(h, pos, |h|);
    if h1[..last] != [] {
      SiftDownKeeps(h1[..last], 1, info);
    }
  }

  lemma OccupyKeeps(h: seq<TaskId>, t: TaskId, info: Table)
    requires t in h
    ensures multiset(Occupy(h, t, info)) == multiset(h) - multiset{t}
  {
    ReplaceKeeps(h, Search(h, t), info);
  }

  lemma UpdatePriorityKeeps(h: seq<TaskId>, t: TaskId, np: int, info: Table)
    requires t in h
    ensures multiset(UpdatePriority(h, t, np, info)) == multiset(h)
  {
    SiftDownKeeps(h, Search(h, t), SetPrio(info, t, np));
    SiftUpKeeps(h, Search(h, t), SetPrio(info, t, np));
  }

  // ---------------------------------------------------------------------------
  // Heap order

  /** No task is above its parent. */
  ghost predicate HeapOk(h: seq<TaskId>, info: Table) {
    forall pos :: 2 <= pos <= |h| ==> Geq(info, h[Parent(pos) - 1], h[pos - 1])
  }

  /** Every ordering required by HeapOk but the ones on position `hole`, and its parent is above its children. */
  ghost predicate HeapButAbove(h: seq<TaskId>, hole: nat, info: Table) {
    && (forall pos :: 2 <= pos <= |h| && pos != hole ==> Geq(info, h[Parent(pos) - 1], h[pos - 1]))
    && BridgesHole(h, hole, info)
  }

  ghost predicate HeapButBelow(h: seq<TaskId>, hole: nat, info: Table) {
    && (forall pos :: 2 <= pos <= |h| && Parent(pos) != hole ==> Geq(info, h[Parent(pos) - 1], h[pos - 1]))
    && BridgesHole(h, hole, info)
  }

  ghost predicate BridgesHole(h: seq<TaskId>, hole: nat, info: Table) {
    2 <= hole <= |h| ==>
      forall pos :: 2 <= pos <= |h| && Parent(pos) == hole ==> Geq(info, h[Parent(hole) - 1], h[pos - 1])
  }

  lemma {:induction false} SiftUpOrders(h: seq<TaskId>, pos: nat, info: Table)
    requires 1 <= pos <= |h| && HeapButAbove(h, pos, info)
    ensures HeapOk(SiftUp(h, pos, info), info)
    decreases pos
  {
    var parent := Parent(pos);
    if parent >= 1 && Compare(Key(info, h[pos - 1]), Key(info, h[parent - 1])) > 0 {
      var h' := Swap(h, pos, parent);
      assert HeapButAbove(h', parent, info);
      SiftUpOrders(h', parent, info);
    }
  }

  lemma {:induction false} SiftDownOrders(h: seq<TaskId>, pos: nat, info: Table)
    requires 1 <= pos <= |h| && HeapButBelow(h, pos, info)
    ensures HeapOk(SiftDown(h, pos, info), info)
    decreases |h| - pos
  {
    if 2 * pos <= |h| {
      var child := LargerChild(h, pos, info);
      if Compare(Key(info, h[pos - 1]), Key(info, h[child - 1])) < 0 {
        var h' := Swap(h, pos, child);
        assert HeapButBelow(h', child, info);
        SiftDownOrders(h', child, info);
      }
    }
  }

  /** The head of an ordered queue is a maximum. */
  lemma {:induction false} HeadIsMaximum(h: seq<TaskId>, info: Table, pos: nat)
    requires HeapOk(h, info) && 1 <= pos <= |h|
    ensures Geq(info, h[0], h[pos - 1])
    decreases pos
  {
    if pos >= 2 {
      HeadIsMaximum(h, info, Parent(pos));
      assert Geq(info, h[Parent(pos) - 1], h[pos - 1]);
    }
  }

  /** The same in terms of validity and priority */
  lemma HeadTops(h: seq<TaskId>, info: Table)
    requires HeapOk(h, info) && h != []
    ensures Tops(h, info, h[0])
  {
    forall u | u in h && Key(info, u).valid ensures Key(info, h[0]).valid && Key(info, h[0]).prio >= Key(info, u).prio {
      var i :| 0 <= i < |h| && h[i] == u;
      HeadIsMaximum(h, info, i + 1);
      GeqIff(info, h[0], u);
    }
  }

  lemma PushOrders(h: seq<TaskId>, t: TaskId, info: Table)
    requires HeapOk(h, info)
    ensures HeapOk(Push(h, t, info), info)
  {
    var h' := h + [t];
    if Key(info, t).valid {
      assert HeapButAbove(h', |h'|, info);
      SiftUpOrders(h', |h'|, info);
    }
  }

  /** Popping, or occupying the head, keeps the order. */
  lemma RemoveHeadOrders(h: seq<TaskId>, info: Table)
    requires HeapOk(h, info) && h != []
    ensures HeapOk(RemoveHead(h, info), info)
    ensures Occupy(h, h[0], info) == RemoveHead(h, info)
  {
    var h' := h[0 := h[|h| - 1]][..|h| - 1];
    if h' != [] {
      forall pos | 2 <= pos <= |h'| && Parent(pos) != 1
        ensures Geq(info, h'[Parent(pos) - 1], h'[pos - 1])
      {
        assert Geq(info, h[Parent(pos) - 1], h[pos - 1]);
      }
      SiftDownOrders(h', 1, info);
    }
  }

  // ---------------------------------------------------------------------------
  // Where the order can break

  function SetValid(info: Table, t: TaskId, valid: bool): Table {
    info[t := Key(info, t).(valid := valid)]
  }

  /** t is in h once. */
  ghost predicate Once(h: seq<TaskId>, t: TaskId) {
    t in h && forall i, j :: 0 <= i < |h| && 0 <= j < |h| && h[i] == t && h[j] == t ==> i == j
  }

  /**
    LpelTaskqueueUpdatePriority after t's validity has been set: the order is kept unless t was
    made valid again without a higher priority (the call then never sifts it up) while its new
    key exceeds its parent's.
   */
  lemma UpdatePriorityOrdersIff(h: seq<TaskId>, t: TaskId, valid: bool, np: int, info: Table)
    requires HeapOk(h, info) && Once(h, t)
    ensures var info' := SetPrio(SetValid(info, t, valid), t, np);
      var pos := Search(h, t);
      var revived := !Key(info, t).valid && valid;
      HeapOk(UpdatePriority(h, t, np, SetValid(info, t, valid)), info') <==>
      !(revived && np <= Key(info, t).prio && pos >= 2 && !Geq(info', h[Parent(pos) - 1], t))
  {
    var info1 := SetValid(info, t, valid);
    var info' := SetPrio(info1, t, np);
    var pos := Search(h, t);
    var p := Key(info, t).prio;
    if !Key(info, t).valid && valid && np <= p {
      RevivedStays(h, t, np, info);
    } else if np < p || !valid {
      LoweredBelow(h, t, pos, info, info');
      SiftDownOrders(h, pos, info');
    } else if np > p {
      RaisedAbove(h, t, pos, info, info');
      SiftUpOrders(h, pos, info');
    } else {
      RaisedAbove(h, t, pos, info, info');
    }
  }

  /** The common case: validity unchanged or just dropped. */
  lemma UpdatePriorityOrders(h: seq<TaskId>, t: TaskId, valid: bool, np: int, info: Table)
    requires HeapOk(h, info) && Once(h, t) && (valid ==> Key(info, t).valid)
    ensures HeapOk(UpdatePriority(h, t, np, SetValid(info, t, valid)), SetPrio(SetValid(info, t, valid), t, np))
  {
    UpdatePriorityOrdersIff(h, t, valid, np, info);
  }

  /** Only t's key differs, and not upwards. */
  lemma LoweredBelow(h: seq<TaskId>, t: TaskId, pos: nat, info: Table, info': Table)
    requires HeapOk(h, info) && Once(h, t) && 1 <= pos <= |h| && h[pos - 1] == t
    requires forall u :: u != t ==> Key(info', u) == Key(info, u)
    requires Compare(Key(info, t), Key(info', t)) >= 0
    ensures HeapButBelow(h, pos, info')
  {
    forall q | 2 <= q <= |h|
      ensures Parent(q) != pos ==> Geq(info', h[Parent(q) - 1], h[q - 1])
      ensures Parent(q) == pos && pos >= 2 ==> Geq(info', h[Parent(pos) - 1], h[q - 1])
    {
      assert Geq(info, h[Parent(q) - 1], h[q - 1]);
      if pos >= 2 {
        assert Geq(info, h[Parent(pos) - 1], h[pos - 1]);
      }
    }
  }

  /** Only t's key differs, and not downwards. */
  lemma RaisedAbove(h: seq<TaskId>, t: TaskId, pos: nat, info: Table, info': Table)
    requires HeapOk(h, info) && Once(h, t) && 1 <= pos <= |h| && h[pos - 1] == t
    requires forall u :: u != t ==> Key(info', u) == Key(info, u)
    requires Compare(Key(info', t), Key(info, t)) >= 0
    ensures HeapButAbove(h, pos, info')
    ensures Key(info', t) == Key(info, t) ==> HeapOk(h, info')
  {
    forall q | 2 <= q <= |h|
      ensures q != pos ==> Geq(info', h[Parent(q) - 1], h[q - 1])
      ensures Parent(q) == pos && pos >= 2 ==> Geq(info', h[Parent(pos) - 1], h[q - 1])
      ensures Key(info', t) == Key(info, t) ==> Geq(info', h[Parent(q) - 1], h[q - 1])
    {
      assert Geq(info, h[Parent(q) - 1], h[q - 1]);
      if pos >= 2 {
        assert Geq(info, h[Parent(pos) - 1], h[pos - 1]);
      }
    }
  }

  /**
    LpelTaskqueueUpdatePriority alone: t has the new priority and its old validity, no other key and no
    task is touched, and an ordered queue is ordered for the new keys.
   */
  lemma NewPriority(h: seq<TaskId>, t: TaskId, np: int, info: Table)
    requires t in h
    ensures Key(SetPrio(info, t, np), t) == Info(np, Key(info, t).valid)
    ensures forall u :: u != t ==> Key(SetPrio(info, t, np), u) == Key(info, u)
    ensures multiset(UpdatePriority(h, t, np, info)) == multiset(h)
    ensures HeapOk(h, info) && Once(h, t) ==> HeapOk(UpdatePriority(h, t, np, info), SetPrio(info, t, np))
  {
    UpdatePriorityKeeps(h, t, np, info);
    if HeapOk(h, info) && Once(h, t) {
      NewPriorityOrders(h, t, np, info);
    }
  }

  lemma NewPriorityOrders(h: seq<TaskId>, t: TaskId, np: int, info: Table)
    requires HeapOk(h, info) && Once(h, t)
    ensures HeapOk(UpdatePriority(h, t, np, info), SetPrio(info, t, np))
  {
    var info', pos := SetPrio(info, t, np), Search(h, t);
    if np < Key(info, t).prio || !Key(info, t).valid {
      LoweredBelow(h, t, pos, info, info');
      SiftDownOrders(h, pos, info');
    } else {
      RaisedAbove(h, t, pos, info, info');
      SiftUpOrders(h, pos, info');
    }
  }

  /** A task made valid again without a higher priority keeps its position. */
  lemma RevivedStays(h: seq<TaskId>, t: TaskId, np: int, info: Table)
    requires HeapOk(h, info) && Once(h, t) && !Key(info, t).valid && np <= Key(info, t).prio
    ensures var info' := SetPrio(SetValid(info, t, true), t, np);
      && UpdatePriority(h, t, np, SetValid(info, t, true)) == h
      && (HeapOk(h, info') <==> Search(h, t) == 1 || Geq(info', h[Parent(Search(h, t)) - 1], t))
  {
    var info' := SetPrio(SetValid(info, t, true), t, np);
    var pos := Search(h, t);
    RaisedAbove(h, t, pos, info, info');
    if 2 * pos <= |h| {
      var child := LargerChild(h, pos, info');
      assert Geq(info', h[Parent(child) - 1], h[child - 1]);
    }
  }

  /** The failing case exists. */
  lemma RevivedCanBreakOrder()
    ensures var info: Table := map[0 := Info(1, true), 1 := Info(5, false)];
      && HeapOk([0, 1], info) && Once([0, 1], 1)
      && !HeapOk(UpdatePriority([0, 1], 1, 5, SetValid(info, 1, true)), SetPrio(SetValid(info, 1, true), 1, 5))
  {
    var info: Table := map[0 := Info(1, true), 1 := Info(5, false)];
    assert Once([0, 1], 1);
    assert Parent(2) == 1;
    UpdatePriorityOrdersIff([0, 1], 1, true, 5, info);
    assert Search([0, 1], 1) == 2;
  }

  /**
    updatePriorityList without update_prio sets a task's validity and leaves the queue as it is. The
    order is kept exactly if a task made invalid has no valid task below it, and a task made valid
    has a valid parent of at least its priority.
   */
  lemma SetValidOrdersIff(h: seq<TaskId>, t: TaskId, valid: bool, info: Table)
    requires HeapOk(h, info) && Once(h, t)
    ensures var pos, key := Search(h, t), Key(info, t);
      HeapOk(h, SetValid(info, t, valid)) <==>
        && (key.valid && !valid ==> forall c :: 2 <= c <= |h| && Parent(c) == pos ==> !Key(info, h[c - 1]).valid)
        && (!key.valid && valid && pos >= 2 ==>
              var parent := Key(info, h[Parent(pos) - 1]); parent.valid && parent.prio >= key.prio)
  {
  }

  /** The failing case exists: an invalid task then heads a queue that holds a valid one. */
  lemma SetValidCanBreakOrder()
    ensures var info: Table := map[0 := Info(5, true), 1 := Info(3, true)]; var info' := SetValid(info, 0, false);
      && HeapOk([0, 1], info) && Once([0, 1], 0)
      && !HeapOk([0, 1], info') && !Key(info', 0).valid && Key(info', 1).valid
  {
    var info: Table := map[0 := Info(5, true), 1 := Info(3, true)];
    var info' := SetValid(info, 0, false);
    assert Parent(2) == 1;
    assert !Geq(info', [0, 1][Parent(2) - 1], [0, 1][2 - 1]);
  }

  // ---------------------------------------------------------------------------
  // Priorities of type double

  /** A C conversion has a value only if the truncated number is one of type int. */
  datatype Conversion = Int(value: int) | Undefined

  /** Conversion of a double to a 32-bit int in C */
  function Truncate(x: real): Conversion {
    if x <= -2147483649.0 || x >= 2147483648.0 then Undefined
    else Int(if x >= 0.0 then x.Floor else -((-x).Floor))
  }

  /** comparePrior for two valid tasks with priorities of type double */
  function CompareReal(p: real, q: real): Conversion { Truncate(p - q) }

  /** The comparison has a value, and that value the sign of the difference. */
  predicate Exact(p: real, q: real) {
    var c := CompareReal(p, q);
    c.Int? && (c.value > 0 <==> p > q) && (c.value < 0 <==> p < q)
  }

  /** That is so exactly for equal priorities and for those that differ by at least 1 and less than the range of int. */
  lemma CompareRealIsExactIff(p: real, q: real)
    ensures Exact(p, q) <==> p == q || 1.0 <= p - q < 2147483648.0 || 1.0 <= q - p < 2147483649.0
  {
    if p > q {
      assert (p - q).Floor >= 1 <==> p - q >= 1.0;
    } else if p < q {
      assert -(p - q) == q - p;
      assert (q - p).Floor >= 1 <==> q - p >= 1.0;
    }
  }

  /** Equality under the truncated difference is not transitive. */
  lemma CompareRealIsNotTransitive()
    ensures CompareReal(0.0, 0.6) == Int(0) && CompareReal(0.6, 1.2) == Int(0) && CompareReal(0.0, 1.2) == Int(-1)
  {
    assert (0.6).Floor == 0;
    assert (1.2).Floor == 1;
  }

  /** DBL_MAX, the priority of every new task when priorities are dynamic */
  const DBL_MAX: real := 179769313486231570814527423731704356798070567525844996598917476803157260780028538760589558632766878171540458953514382464234321326889464182768467546703537516986049910576551282076245490090389328944075868508455133942304583236903222948165808559332123348274797826204144723168738177180919299881250404026184124858368.0

  /** A new task can be compared only with a priority within the range of int of DBL_MAX, in effect with another new task. */
  lemma NewTaskComparesIff(q: real)
    ensures CompareReal(DBL_MAX, q).Int? <==> DBL_MAX - 2147483648.0 < q < DBL_MAX + 2147483649.0
    ensures CompareReal(DBL_MAX, 0.0) == Undefined && !Exact(DBL_MAX, 0.0)
  {
  }

  // ---------------------------------------------------------------------------
  // The queue as it is updated in place

  const BLOCKSIZE: nat := 50

  /** One round of downHeap: h is the array's contents a with t, the task on its way down, at pos. */
  lemma Child(h: seq<TaskId>, a: seq<TaskId>, pos: nat, t: TaskId, child: nat, info: Table)
    requires 1 <= pos && 2 * pos <= |a| && h == a[pos - 1 := t]
    requires child == if 2 * pos + 1 <= |a| && Compare(Key(info, a[2 * pos - 1]), Key(info, a[2 * pos])) < 0 then 2 * pos + 1 else 2 * pos
    ensures child == LargerChild(h, pos, info) && h[pos - 1] == t && h[child - 1] == a[child - 1]
  {
    assert h[2 * pos - 1] == a[2 * pos - 1];
  }

  /** The child moves up, and t is to go where it was. */
  lemma ChildUp(h: seq<TaskId>, a: seq<TaskId>, pos: nat, t: TaskId, child: nat)
    requires 1 <= pos < child <= |a| && h == a[pos - 1 := t]
    ensures Swap(h, pos, child) == a[pos - 1 := a[child - 1]][child - 1 := t]
  {
  }

  /** taskqueue_t. `sched` stands for the sched_info fields of the tasks. */
  class Queue {
    var heap: array<TaskId>
    var count: nat
    var sched: Table

    ghost predicate Valid()
      reads this
    {
      1 <= count <= heap.Length
    }

    ghost function Tasks(): seq<TaskId>
      requires Valid()
      reads this, heap
    {
      heap[1..count]
    }

    /** LpelTaskqueueInit */
    constructor (sched: Table)
      ensures Valid() && Tasks() == [] && this.sched == sched && fresh(heap)
    {
      heap := new TaskId[BLOCKSIZE](_ => 0);
      count := 1;
      this.sched := sched;
    }

    /** upHeap moves the parents down along the path and stores the task once, at the end. */
    method UpHeap(start: nat)
      requires Valid() && 1 <= start < count
      modifies heap
      ensures Tasks() == SiftUp(old(Tasks()), start, sched)
    {
      var pos := start;
      var t := heap[pos];
      assert heap[1..count][pos - 1 := t] == heap[1..count];
      while pos / 2 != 0 && Compare(Key(sched, t), Key(sched, heap[pos / 2])) > 0
        invariant 1 <= pos < count
        invariant SiftUp(heap[1..count][pos - 1 := t], pos, sched) == SiftUp(old(Tasks()), start, sched)
        decreases pos
      {
        ghost var before := heap[1..count][pos - 1 := t];
        var parent := pos / 2;
        heap[pos] := heap[parent];
        assert heap[1..count][parent - 1 := t] == Swap(before, pos, parent);
        pos := parent;
      }
      heap[pos] := t;
    }

    /** downHeap moves the larger children up along the path and stores the task once, at the end. */
    method DownHeap(start: nat)
      requires Valid() && 1 <= start < count
      modifies heap
      ensures Tasks() == SiftDown(old(Tasks()), start, sched)
    {
      var pos := start;
      var t := heap[pos];
      ghost var h := heap[1..count];
      assert h[pos - 1 := t] == h;
      while 2 * pos < count
        invariant 1 <= pos < count && |h| == count - 1
        invariant h == heap[1..count][pos - 1 := t]
        invariant SiftDown(h, pos, sched) == SiftDown(old(Tasks()), start, sched)
        decreases count - pos
      {
        var child := 2 * pos;
        if child + 1 < count && Compare(Key(sched, heap[child]), Key(sched, heap[child + 1])) < 0 {
          child := child + 1;
        }
        ghost var a := heap[1..count];
        Child(h, a, pos, t, child, sched);
        if Compare(Key(sched, t), Key(sched, heap[child])) >= 0 {
          break;
        }
        heap[pos] := heap[child];
        assert heap[1..count] == a[pos - 1 := a[child - 1]];
        ChildUp(h, a, pos, t, child);
        h := Swap(h, pos, child);
        pos := child;
      }
      heap[pos] := t;
      assert heap[1..count] == h;
    }

    /** searchItem */
    method SearchItem(t: TaskId) returns (pos: int)
      requires Valid()
      ensures pos == Search(Tasks(), t)
    {
      var i := 1;
      while i < count
        invariant 1 <= i <= count
        invariant t !in Tasks()[..i - 1]
        invariant SearchFrom(Tasks(), t, i) == Search(Tasks(), t)
      {
        if heap[i] == t {
          return i;
        }
        i := i + 1;
      }
      return -1;
    }

    /** LpelTaskqueuePush, growing the array by BLOCKSIZE when it is full */
    method PushTask(t: TaskId)
      requires Valid()
      modifies this`heap, this`count, heap
      ensures Valid() && (heap == old(heap) || fresh(heap))
      ensures Tasks() == Push(old(Tasks()), t, sched)
      ensures multiset(Tasks()) == multiset(old(Tasks())) + multiset{t}
      ensures HeapOk(old(Tasks()), sched) ==> HeapOk(Tasks(), sched)
    {
      if count >= heap.Length {
        var bigger := new TaskId[heap.Length + BLOCKSIZE](_ => 0);
        forall i | 0 <= i < heap.Length {
          bigger[i] := heap[i];
        }
        heap := bigger;
      }
      assert heap[1..count] == old(Tasks());
      heap[count] := t;
      count := count + 1;
      assert Tasks() == old(Tasks()) + [t];
      if Key(sched, t).valid {
        UpHeap(count - 1);
      }
      PushKeeps(old(Tasks()), t, sched);
      if HeapOk(old(Tasks()), sched) {
        PushOrders(old(Tasks()), t, sched);
      }
    }

    /** LpelTaskqueuePeek */
    method Peek() returns (empty: bool, t: TaskId)
      requires Valid()
      ensures empty <==> Tasks() == []
      ensures !empty ==> t == Tasks()[0]
      ensures !empty && HeapOk(Tasks(), sched) ==> Tops(Tasks(), sched, t)
    {
      empty, t := count == 1, 0;
      if !empty {
        t := heap[1];
        if HeapOk(Tasks(), sched) {
          HeadTops(Tasks(), sched);
        }
      }
    }

    /** LpelTaskqueuePop */
    method Pop() returns (empty: bool, t: TaskId)
      requires Valid()
      modifies this`count, heap
      ensures Valid()
      ensures empty <==> old(Tasks()) == []
      ensures empty ==> Tasks() == old(Tasks())
      ensures !empty ==> t == old(Tasks())[0] && Tasks() == RemoveHead(old(Tasks()), sched)
      ensures !empty ==> multiset(Tasks()) == multiset(old(Tasks())) - multiset{t}
      ensures !empty && HeapOk(old(Tasks()), sched) ==> Tops(old(Tasks()), sched, t) && HeapOk(Tasks(), sched)
    {
      empty, t := count == 1, 0;
      if !empty {
        t := heap[1];
        DropAt(1);
        ReplaceKeeps(old(Tasks()), 1, sched);
        if HeapOk(old(Tasks()), sched) {
          HeadTops(old(Tasks()), sched);
          RemoveHeadOrders(old(Tasks()), sched);
        }
      }
    }

    /** The tail shared by removeHead and LpelTaskqueueOccupyTask */
    method DropAt(pos: nat)
      requires Valid() && 1 <= pos < count
      modifies this`count, heap
      ensures Valid() && Tasks() == Replace(old(Tasks()), pos, sched)
    {
      count := count - 1;
      heap[pos] := heap[count];
      assert Tasks() == old(Tasks())[pos - 1 := old(Tasks())[count - 1]][..count - 1];
      if count > 1 {
        DownHeap(1);
      }
    }

    /** LpelTaskqueueOccupyTask; its assert requires that t is queued. */
    method OccupyTask(t: TaskId)
      requires Valid() && t in Tasks()
      modifies this`count, heap
      ensures Valid() && Tasks() == Occupy(old(Tasks()), t, sched)
      ensures multiset(Tasks()) == multiset(old(Tasks())) - multiset{t}
      ensures HeapOk(old(Tasks()), sched) && t == old(Tasks())[0] ==> HeapOk(Tasks(), sched)
    {
      var pos := SearchItem(t);
      DropAt(pos);
      OccupyKeeps(old(Tasks()), t, sched);
      if HeapOk(old(Tasks()), sched) {
        RemoveHeadOrders(old(Tasks()), sched);
      }
    }

    /** LpelTaskqueueUpdatePriority; its assert requires that t is queued. */
    method ChangePriority(t: TaskId, np: int)
      requires Valid() && t in Tasks()
      modifies this`sched, heap
      ensures Valid()
      ensures sched == SetPrio(old(sched), t, np)
      ensures Tasks() == UpdatePriority(old(Tasks()), t, np, old(sched))
      ensures Key(sched, t) == Info(np, old(Key(sched, t).valid))
      ensures forall u :: u != t ==> Key(sched, u) == old(Key(sched, u))
      ensures multiset(Tasks()) == multiset(old(Tasks()))
      ensures HeapOk(old(Tasks()), old(sched)) && Once(old(Tasks()), t) ==> HeapOk(Tasks(), sched)
    {
      NewPriority(Tasks(), t, np, sched);
      var pos := SearchItem(t);
      var p := Key(sched, t).prio;
      sched := SetPrio(sched, t, np);
      if np < p || !Key(sched, t).valid {
        DownHeap(pos);
      } else if np > p {
        UpHeap(pos);
      }
    }
  }
}
