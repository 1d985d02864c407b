/**
  The rotation at the end of LpelStreamPoll (decen_stream.c): the set's handle becomes the returned
  descriptor, so the next iteration starts after it. With it, a consumer that keeps polling a set
  serves every stream that has data.
 */
module PollRotation {
  import opened Ring
  import opened StreamNet
  import StreamSet

  // ---------------------------------------------------------------------------
  // One poll

  /** t polls with stream order[k] not empty: its first loop has not passed k, or has returned a stream up to k. */
  ghost predicate Scanning(net: Net, t: TaskId, order: seq<StreamId>, k: nat) {
    && t < |net.tasks| && k < |order| && NonEmpty(net, order[k])
    && var pc := net.tasks[t].pc;
    || (pc.PFast? && pc.order == order && pc.i <= k)
    || (pc.PReturn? && pc.order == order && pc.fast && exists j :: 0 <= j <= k && pc.sd == order[j])
  }

  /** Only its consumer empties a stream. */
  lemma StaysNonEmpty(net: Net, a: Action, s: StreamId)
    requires WellFormed(net) && Enabled(net, a) && NonEmpty(net, s)
    requires net.streams[s].cons == a.t ==> IsPolling(net.tasks[a.t].pc)
    ensures NonEmpty(Apply(net, a), s)
  {
    assert PcOk(net, a.t);
  }

  lemma ScanStep(net: Net, a: Action, t: TaskId, order: seq<StreamId>, k: nat)
    requires Inv(net) && WellFormed(net) && Enabled(net, a) && Scanning(net, t, order, k)
    requires a.t == t ==> net.tasks[t].pc.PFast?
    ensures Scanning(Apply(net, a), t, order, k)
  {
    TaskAt(net, t);
    assert net.streams[order[k]].cons == t;
    StaysNonEmpty(net, a, order[k]);
    if a.t == t {
      var i := net.tasks[t].pc.i;
      StreamAt(net, order[i]);
      TopIsOldest(net.streams[order[i]].ring, Queue(net.streams[order[i]]));
    } else {
      OthersStay(net, a, t);
    }
  }

  /** Between states b and e of the run, task t polls over order and gets sd. */
  ghost predicate PollsBetween(states: seq<Net>, acts: seq<Action>, b: nat, e: nat, t: TaskId, order: seq<StreamId>, sd: StreamId) {
    && IsRun(states, acts) && b < e < |states| && acts[b] == BeginPoll(t, order)
    && (forall m :: b < m <= e ==> t < |states[m].tasks|)
    && (forall m :: b < m < e ==> IsPolling(states[m].tasks[t].pc) && !states[m].tasks[t].pc.PReturn?)
    && states[e].tasks[t].pc.PReturn? && states[e].tasks[t].pc.sd == sd
  }

  lemma {:induction false} ScansUntil(states: seq<Net>, acts: seq<Action>, b: nat, e: nat, m: nat, t: TaskId, order: seq<StreamId>, sd: StreamId, k: nat)
    requires PollsBetween(states, acts, b, e, t, order, sd) && b < m <= e
    requires k < |order| && NonEmpty(states[b], order[k])
    ensures Scanning(states[m], t, order, k)
  {
    RunInv(states, acts, m - 1);
    if m == b + 1 {
      assert Enabled(states[b], acts[b]);
    } else {
      ScansUntil(states, acts, b, e, m - 1, t, order, sd, k);
      ScanStep(states[m - 1], acts[m - 1], t, order, k);
    }
  }

  /** A poll never passes a stream that already has data: it returns it, or one that comes before it in the iteration. */
  lemma PicksNoLater(states: seq<Net>, acts: seq<Action>, b: nat, e: nat, t: TaskId, order: seq<StreamId>, sd: StreamId, k: nat)
    requires PollsBetween(states, acts, b, e, t, order, sd)
    requires k < |order| && NonEmpty(states[b], order[k])
    ensures states[e].tasks[t].pc.fast && exists j :: 0 <= j <= k && sd == order[j]
  {
    ScansUntil(states, acts, b, e, e, t, order, sd, k);
  }

  // ---------------------------------------------------------------------------
  // Successive polls

  /** Poll number n of t over the same set: it begins at state begins[n] and returns element picks[n] at state ends[n]. */
  datatype Polls = Polls(begins: seq<nat>, ends: seq<nat>, orders: seq<seq<StreamId>>, picks: seq<nat>)

  /** Consecutive polls over one set, each over the order its predecessor has left. */
  ghost predicate KeepsPolling(states: seq<Net>, acts: seq<Action>, t: TaskId, p: Polls) {
    && |p.begins| == |p.ends| == |p.orders| == |p.picks|
    && (forall n :: 0 <= n < |p.picks| ==>
          && p.picks[n] < |p.orders[n]|
          && PollsBetween(states, acts, p.begins[n], p.ends[n], t, p.orders[n], p.orders[n][p.picks[n]]))
    && (forall n :: 0 <= n < |p.picks| - 1 ==> p.orders[n + 1] == StreamSet.Rotated(p.orders[n], p.picks[n]))
  }

  /** s is in the set and has data whenever a poll begins: it is not read. */
  ghost predicate HasData(states: seq<Net>, p: Polls, s: StreamId)
    requires |p.begins| == |p.orders|
  {
    forall n :: 0 <= n < |p.begins| ==> p.begins[n] < |states| && NonEmpty(states[p.begins[n]], s)
  }

  lemma BeginsOverSet(states: seq<Net>, acts: seq<Action>, b: nat, e: nat, t: TaskId, order: seq<StreamId>, sd: StreamId)
    requires PollsBetween(states, acts, b, e, t, order, sd)
    ensures Distinct(order) && StreamSet.Distinct(order) && order != []
  {
    assert Enabled(states[b], acts[b]);
  }

  lemma PickIs(states: seq<Net>, acts: seq<Action>, t: TaskId, p: Polls, s: StreamId, n: nat, k: nat)
    requires KeepsPolling(states, acts, t, p) && HasData(states, p, s) && n < |p.picks|
    requires k < |p.orders[n]| && p.orders[n][k] == s
    ensures p.picks[n] <= k
  {
    var b, e, order, i := p.begins[n], p.ends[n], p.orders[n], p.picks[n];
    assert PollsBetween(states, acts, b, e, t, order, order[i]);
    assert NonEmpty(states[b], order[k]);
    PicksNoLater(states, acts, b, e, t, order, order[i], k);
    var j :| 0 <= j <= k && order[i] == order[j];
    BeginsOverSet(states, acts, b, e, t, order, order[i]);
  }

  /** From poll n on, with s at position k of its order, s is returned within k + 1 polls. */
  lemma {:induction false} ServedWithin(states: seq<Net>, acts: seq<Action>, t: TaskId, p: Polls, s: StreamId, n: nat, k: nat)
    requires KeepsPolling(states, acts, t, p) && HasData(states, p, s)
    requires n + k < |p.picks| && k < |p.orders[n]| && p.orders[n][k] == s
    ensures exists m :: n <= m <= n + k && p.orders[m][p.picks[m]] == s
    decreases k
  {
    PickIs(states, acts, t, p, s, n, k);
    var i := p.picks[n];
    if i < k {
      var sd := p.orders[n][i];
      assert PollsBetween(states, acts, p.begins[n], p.ends[n], t, p.orders[n], sd);
      BeginsOverSet(states, acts, p.begins[n], p.ends[n], t, p.orders[n], sd);
      StreamSet.RotatedAt(p.orders[n], i, k);
      ServedWithin(states, acts, t, p, s, n + 1, k - i - 1);
    }
  }

  /** No stream starves: one that keeps its data is returned within as many polls as the set has elements. */
  lemma NoStarvation(states: seq<Net>, acts: seq<Action>, t: TaskId, p: Polls, s: StreamId)
    requires KeepsPolling(states, acts, t, p) && HasData(states, p, s)
    requires p.orders != [] && s in p.orders[0] && |p.picks| >= |p.orders[0]|
    ensures exists m :: 0 <= m < |p.orders[0]| && p.orders[m][p.picks[m]] == s
  {
    var k :| 0 <= k < |p.orders[0]| && p.orders[0][k] == s;
    ServedWithin(states, acts, t, p, s, 0, k);
  }
}
