/**
  What goes into a stream and what comes out of it, told from the calls alone: the arguments of the
  writes, and the results of the reads.
 */
module StreamHistory {
  import opened Ring
  import opened StreamNet

  /** The arguments of the calls of LpelStreamWrite on s, in order */
  function Written(acts: seq<Action>, s: StreamId): seq<Pointer> {
    if acts == [] then []
    else Written(acts[..|acts| - 1], s) + WrittenBy(acts[|acts| - 1], s)
  }

  function WrittenBy(a: Action, s: StreamId): seq<Pointer> {
    if a.BeginWrite? && a.s == s then [a.item] else []
  }

  /** The result of the call of LpelStreamRead on s, if one returns between net and net' */
  function ReturnedBy(net: Net, a: Action, net': Net, s: StreamId): seq<Pointer> {
    if a.t < |net.tasks| && a.t < |net'.tasks| && InRead(net.tasks[a.t].pc, s) && net'.tasks[a.t].pc == Running
    then [net.tasks[a.t].pc.item] else []
  }

  /** The reader holds the item it will return. */
  predicate InRead(pc: Pc, s: StreamId) { (pc.RRaise? || pc.RUnblock?) && pc.s == s }

  /** The results of the reads of s that have returned, in order */
  function Returned(states: seq<Net>, acts: seq<Action>, s: StreamId): seq<Pointer>
    requires |states| == |acts| + 1
    decreases |acts|
  {
    if acts == [] then []
    else
      var n := |acts| - 1;
      Returned(states[..n + 1], acts[..n], s) + ReturnedBy(states[n], acts[n], states[n + 1], s)
  }

  /** The item that a writer, inside the call, has still to put */
  function Unput(pc: Pc, s: StreamId): seq<Pointer> {
    if (pc.WBlocked? || pc.WPut?) && pc.s == s then [pc.item] else []
  }

  /** The item that a reader, inside the call, has taken and not yet returned */
  function Held(pc: Pc, s: StreamId): seq<Pointer> {
    if InRead(pc, s) then [pc.item] else []
  }

  // ---------------------------------------------------------------------------
  // One action

  lemma EndsStay(net: Net, a: Action, s: StreamId)
    requires WellFormed(net) && Enabled(net, a) && s < |net.streams|
    ensures var net' := Apply(net, a);
      && |net'.streams| == |net.streams| && |net'.tasks| == |net.tasks|
      && net'.streams[s].prod == net.streams[s].prod && net'.streams[s].cons == net.streams[s].cons
      && |net'.streams[s].ring.data| == |net.streams[s].ring.data|
  {
    assert PcOk(net, a.t);
  }

  /** What a put and a pop do to the histories of s; nothing else touches them. */
  lemma HistoriesStep(net: Net, a: Action, s: StreamId)
    requires WellFormed(net) && Enabled(net, a) && s < |net.streams| && |Apply(net, a).streams| == |net.streams|
    ensures var x, x', pc := net.streams[s], Apply(net, a).streams[s], net.tasks[a.t].pc;
      && x'.sent == x.sent + (if pc.WPut? && pc.s == s then [pc.item] else [])
      && x'.rcvd == x.rcvd + (if pc.RPop? && pc.s == s then [Top(x.ring)] else [])
  {
    assert PcOk(net, a.t);
  }

  /** How the acting task goes on with a write */
  lemma WriterStep(net: Net, a: Action, s: StreamId)
    requires WellFormed(net) && Enabled(net, a) && |Apply(net, a).tasks| == |net.tasks|
    ensures var pc, pc' := net.tasks[a.t].pc, Apply(net, a).tasks[a.t].pc;
      Unput(pc', s) == if pc.WPut? then [] else Unput(pc, s) + WrittenBy(a, s)
  {
    assert PcOk(net, a.t);
    var pc := net.tasks[a.t].pc;
    if !IsWriting(pc) && !a.BeginWrite? {
      NoWrite(net, a);
    }
  }

  lemma NoWrite(net: Net, a: Action)
    requires WellFormed(net) && Enabled(net, a) && !IsWriting(net.tasks[a.t].pc) && !a.BeginWrite?
    ensures |Apply(net, a).tasks| == |net.tasks| && !IsWriting(Apply(net, a).tasks[a.t].pc)
  {
    assert PcOk(net, a.t);
  }

  /** How the acting task goes on with a read; LpelStreamRead pops the item it has seen at the top. */
  lemma ReaderStep(net: Net, a: Action, s: StreamId)
    requires WellFormed(net) && Enabled(net, a) && |Apply(net, a).tasks| == |net.tasks|
    ensures var pc, pc' := net.tasks[a.t].pc, Apply(net, a).tasks[a.t].pc;
      ReturnedBy(net, a, Apply(net, a), s) + Held(pc', s) == if pc.RPop? && pc.s == s then [pc.item] else Held(pc, s)
  {
    assert PcOk(net, a.t);
    var pc := net.tasks[a.t].pc;
    if !IsReading(pc) {
      NoRead(net, a);
    }
  }

  lemma NoRead(net: Net, a: Action)
    requires WellFormed(net) && Enabled(net, a) && !IsReading(net.tasks[a.t].pc)
    ensures |Apply(net, a).tasks| == |net.tasks|
    ensures var pc' := Apply(net, a).tasks[a.t].pc; !pc'.RRaise? && !pc'.RUnblock?
  {
    assert PcOk(net, a.t);
  }

  lemma WrittenStep(net: Net, a: Action, s: StreamId)
    requires Inv(net) && WellFormed(net) && Enabled(net, a) && s < |net.streams|
    ensures var net', x := Apply(net, a), net.streams[s];
      && |net'.streams| == |net.streams| && |net'.tasks| == |net.tasks| && x.prod < |net.tasks|
      && net'.streams[s].prod == x.prod
      && net'.streams[s].sent + Unput(net'.tasks[x.prod].pc, s) == x.sent + Unput(net.tasks[x.prod].pc, s) + WrittenBy(a, s)
  {
    EndsStay(net, a, s);
    HistoriesStep(net, a, s);
    StreamAt(net, s);
    TaskAt(net, a.t);
    if a.t == net.streams[s].prod {
      WriterStep(net, a, s);
    } else {
      OthersStay(net, a, net.streams[s].prod);
    }
  }

  lemma ReturnedStep(net: Net, a: Action, s: StreamId)
    requires Inv(net) && WellFormed(net) && Enabled(net, a) && s < |net.streams|
    ensures var net', x := Apply(net, a), net.streams[s];
      && |net'.streams| == |net.streams| && |net'.tasks| == |net.tasks| && x.cons < |net.tasks|
      && net'.streams[s].cons == x.cons && x.rcvd <= net'.streams[s].rcvd
      && ReturnedBy(net, a, net', s) + Held(net'.tasks[x.cons].pc, s)
           == Held(net.tasks[x.cons].pc, s) + net'.streams[s].rcvd[|x.rcvd|..]
  {
    EndsStay(net, a, s);
    HistoriesStep(net, a, s);
    StreamAt(net, s);
    TaskAt(net, a.t);
    var x := net.streams[s];
    TopIsOldest(x.ring, Queue(x));
    if a.t == x.cons {
      ReaderStep(net, a, s);
    } else {
      OthersStay(net, a, x.cons);
    }
  }

  // ---------------------------------------------------------------------------
  // Runs

  lemma RunPrefix(states: seq<Net>, acts: seq<Action>, i: nat)
    requires IsRun(states, acts) && i <= |acts|
    ensures IsRun(states[..i + 1], acts[..i])
  {
  }

  /**
    In every run: the arguments of the writes to s, in the order of the calls, are the items that have
    been put into its ring, and after them the one that a writer inside its call has still to put.
   */
  lemma {:induction false} PutsWhatWasWritten(states: seq<Net>, acts: seq<Action>, s: StreamId)
    requires IsRun(states, acts) && s < |states[0].streams|
    ensures var net := states[|acts|];
      && s < |net.streams| && net.streams[s].prod < |net.tasks|
      && Written(acts, s) == net.streams[s].sent + Unput(net.tasks[net.streams[s].prod].pc, s)
    decreases |acts|
  {
    if acts == [] {
      assert FreshStream(states[0], states[0].streams[s]);
    } else {
      var n := |acts| - 1;
      RunPrefix(states, acts, n);
      PutsWhatWasWritten(states[..n + 1], acts[..n], s);
      RunInv(states, acts, n);
      WrittenStep(states[n], acts[n], s);
    }
  }

  /** The items popped from s are those its reads have returned, and after them the one a reader inside its call has taken. */
  lemma {:induction false} ReturnsWhatWasPopped(states: seq<Net>, acts: seq<Action>, s: StreamId)
    requires IsRun(states, acts) && s < |states[0].streams|
    ensures var net := states[|acts|];
      && s < |net.streams| && net.streams[s].cons < |net.tasks|
      && net.streams[s].rcvd == Returned(states, acts, s) + Held(net.tasks[net.streams[s].cons].pc, s)
    decreases |acts|
  {
    if acts == [] {
      assert FreshStream(states[0], states[0].streams[s]);
    } else {
      var n := |acts| - 1;
      RunPrefix(states, acts, n);
      ReturnsWhatWasPopped(states[..n + 1], acts[..n], s);
      RunInv(states, acts, n);
      ReturnedStep(states[n], acts[n], s);
      var net, net', c := states[n], states[n + 1], states[n].streams[s].cons;
      Glue(Returned(states[..n + 1], acts[..n], s), ReturnedBy(net, acts[n], net', s), Held(net.tasks[c].pc, s), Held(net'.tasks[c].pc, s),
           net.streams[s].rcvd, net'.streams[s].rcvd);
    }
  }

  lemma Glue(r: seq<Pointer>, more: seq<Pointer>, h: seq<Pointer>, h': seq<Pointer>, rcvd: seq<Pointer>, rcvd': seq<Pointer>)
    requires rcvd == r + h && rcvd <= rcvd' && more + h' == h + rcvd'[|rcvd|..]
    ensures rcvd' == (r + more) + h'
  {
    assert rcvd' == rcvd + rcvd'[|rcvd|..];
    assert (r + more) + h' == r + (more + h') == r + (h + rcvd'[|rcvd|..]);
  }

  /** The k-th read of a stream that returns gives the argument of the k-th write. */
  lemma ReadsWhatWasWritten(states: seq<Net>, acts: seq<Action>, s: StreamId, k: nat)
    requires IsRun(states, acts) && s < |states[0].streams| && k < |Returned(states, acts, s)|
    ensures k < |Written(acts, s)| && Returned(states, acts, s)[k] == Written(acts, s)[k] != NULL
  {
    PutsWhatWasWritten(states, acts, s);
    ReturnsWhatWasPopped(states, acts, s);
    RunInv(states, acts, |acts|);
    StreamAt(states[|acts|], s);
    var x := states[|acts|].streams[s];
    assert Returned(states, acts, s)[k] == x.rcvd[k] == x.sent[k];
    assert x.sent[k] in x.sent;
  }
}
