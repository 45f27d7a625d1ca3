// The registry of connected nodes and the heartbeat watchdog that sweeps it.
// Instants and durations are whole numbers of clock units.

module Registry {
  import opened Base
  import opened Sapient

  datatype ConnectedNode = ConnectedNode(
    nodeId: string, capability: Option<CapabilityAdvertisement>, lastPosition: Option<Position>, lastSeen: nat)

  type Nodes = map<string, ConnectedNode>

  function Entry(nodes: Nodes, node: string, now: nat): ConnectedNode {
    if node in nodes then nodes[node] else ConnectedNode(node, None, None, now)
  }

  /** `last_seen` is always refreshed; capability and position only overwrite when given. */
  function Upserted(
    nodes: Nodes, node: string, capability: Option<CapabilityAdvertisement>, position: Option<Position>,
      now: nat): Nodes
  {
    var e := Entry(nodes, node, now);
    nodes[node := ConnectedNode(e.nodeId, if capability.Some? then capability else e.capability,
                                if position.Some? then position else e.lastPosition, now)]
  }

  function PositionIn(nodes: Nodes, node: string): Option<Position> {
    if node in nodes then nodes[node].lastPosition else None
  }

  predicate Silent(n: ConnectedNode, now: nat, h: nat) { now - n.lastSeen >= 2 * h }

  /** The nodes a sweep at `now` finds silent for two heartbeat intervals. */
  function SilentNodes(nodes: Nodes, now: nat, h: nat): set<string> {
    set n | n in nodes && Silent(nodes[n], now, h)
  }

  // ---- the registry agrees with its history ----

  datatype Op =
    | Given(node: string, capability: Option<CapabilityAdvertisement>, position: Option<Position>, at: nat)
    | Removed(node: string)

  function AfterOp(nodes: Nodes, op: Op): Nodes {
    match op
    case Given(n, c, p, at) => Upserted(nodes, n, c, p, at)
    case Removed(n) => nodes - {n}
  }

  function AfterOps(ops: seq<Op>): Nodes {
    if ops == [] then map[] else AfterOp(AfterOps(ops[..|ops| - 1]), ops[|ops| - 1])
  }

  lemma {:induction false} AfterOneMore(ops: seq<Op>, op: Op)
    ensures AfterOps(ops + [op]) == AfterOp(AfterOps(ops), op)
  {
    assert (ops + [op])[..|ops|] == ops;
    hide AfterOp;
  }

  /** Operation `i` is the last one on the node, and an upsert. */
  ghost predicate LastGiven(ops: seq<Op>, node: string, i: nat) {
    i < |ops| && ops[i].Given? && ops[i].node == node && forall k :: i < k < |ops| ==> ops[k].node != node
  }

  /** Operation `i` is the last upsert that gave the node a position, and the node was not removed since. */
  ghost predicate LastPlaced(ops: seq<Op>, node: string, i: nat) {
    i < |ops| && ops[i].Given? && ops[i].node == node && ops[i].position.Some? &&
    forall k :: i < k < |ops| && ops[k].node == node ==> ops[k].Given? && ops[k].position.None?
  }

  /** A node is present exactly when the last operation on it was an upsert, whose instant it carries; its
      position is the last one given since it was last absent, and it has none exactly when none was. */
  lemma {:induction false} EntryIsLastGiven(ops: seq<Op>, node: string)
    ensures node in AfterOps(ops) <==> exists i: nat :: LastGiven(ops, node, i)
    ensures forall i: nat :: LastGiven(ops, node, i) ==> AfterOps(ops)[node].lastSeen == ops[i].at
    ensures PositionIn(AfterOps(ops), node).Some? <==> exists i: nat :: LastPlaced(ops, node, i)
    ensures forall i: nat :: LastPlaced(ops, node, i) ==> PositionIn(AfterOps(ops), node) == ops[i].position
  {
    if ops != [] {
      var n := |ops| - 1;
      EntryIsLastGiven(ops[..n], node);
      OneMoreOp(ops, node);
      hide LastGiven, LastPlaced;
      if ops[n].Given? && ops[n].node == node {
        assert LastGiven(ops, node, n);
        if ops[n].position.Some? { assert LastPlaced(ops, node, n); }
      }
    }
  }

  /** How the last operation moves both marks. */
  lemma OneMoreOp(ops: seq<Op>, node: string)
    requires ops != []
    ensures var n, before := |ops| - 1, ops[..|ops| - 1];
      (forall i: nat :: LastGiven(ops, node, i) <==>
        if ops[n].node == node then i == n && ops[n].Given? else LastGiven(before, node, i)) &&
      (forall i: nat :: LastPlaced(ops, node, i) <==>
        if ops[n].node != node then LastPlaced(before, node, i)
        else ops[n].Given? && if ops[n].position.Some? then i == n else LastPlaced(before, node, i))
  {
    var n, before := |ops| - 1, ops[..|ops| - 1];
    assert forall k :: 0 <= k < n ==> before[k] == ops[k];
    forall i: nat
      ensures LastGiven(ops, node, i) <==>
        if ops[n].node == node then i == n && ops[n].Given? else LastGiven(before, node, i)
      ensures LastPlaced(ops, node, i) <==>
        if ops[n].node != node then LastPlaced(before, node, i)
        else ops[n].Given? && if ops[n].position.Some? then i == n else LastPlaced(before, node, i)
    {
      if LastGiven(ops, node, i) && i < n { assert ops[n].node != node; }
      if LastPlaced(ops, node, i) && i < n && ops[n].node == node { assert ops[n].Given? && ops[n].position.None?; }
    }
  }

  /** Operation `i` is the last upsert that gave the node a capability, and the node was not removed since. */
  ghost predicate LastAdvertised(ops: seq<Op>, node: string, i: nat) {
    i < |ops| && ops[i].Given? && ops[i].node == node && ops[i].capability.Some? &&
    forall k :: i < k < |ops| && ops[k].node == node ==> ops[k].Given? && ops[k].capability.None?
  }

  /** An entry carries its own node's id, and the capability last given since the node was last absent; it has
      none exactly when none was. */
  lemma {:induction false} CapabilityIsLastGiven(ops: seq<Op>, node: string)
    ensures var nodes := AfterOps(ops);
      (node in nodes ==> nodes[node].nodeId == node) &&
      (node in nodes && nodes[node].capability.Some? <==> exists i: nat :: LastAdvertised(ops, node, i)) &&
      forall i: nat :: LastAdvertised(ops, node, i) ==> nodes[node].capability == ops[i].capability
  {
    if ops != [] {
      var n := |ops| - 1;
      CapabilityIsLastGiven(ops[..n], node);
      OneMoreAdvertised(ops, node);
      hide LastAdvertised;
      if ops[n].Given? && ops[n].node == node && ops[n].capability.Some? {
        assert LastAdvertised(ops, node, n);
      }
    }
  }

  lemma OneMoreAdvertised(ops: seq<Op>, node: string)
    requires ops != []
    ensures var n, before := |ops| - 1, ops[..|ops| - 1];
      forall i: nat :: LastAdvertised(ops, node, i) <==>
        if ops[n].node != node then LastAdvertised(before, node, i)
        else ops[n].Given? && if ops[n].capability.Some? then i == n else LastAdvertised(before, node, i)
  {
    var n, before := |ops| - 1, ops[..|ops| - 1];
    assert forall k :: 0 <= k < n ==> before[k] == ops[k];
    forall i: nat
      ensures LastAdvertised(ops, node, i) <==>
        if ops[n].node != node then LastAdvertised(before, node, i)
        else ops[n].Given? && if ops[n].capability.Some? then i == n else LastAdvertised(before, node, i)
    {
      if LastAdvertised(ops, node, i) && i < n && ops[n].node == node {
        assert ops[n].Given? && ops[n].capability.None?;
      }
    }
  }

  class NodeRegistry {
    var nodes: Nodes
    /** Every upsert and removal so far. */
    ghost var history: seq<Op>

    ghost predicate Valid()
      reads this
    {
      nodes == AfterOps(history)
    }

    constructor ()
      ensures Valid() && nodes == map[] && history == []
    {
      nodes := map[];
      history := [];
    }

    method Upsert(
      node: string, capability: Option<CapabilityAdvertisement>, position: Option<Position>, now: nat)
      requires Valid()
      modifies this
      ensures Valid() && history == old(history) + [Given(node, capability, position, now)]
      ensures nodes == Upserted(old(nodes), node, capability, position, now)
    {
      var entry := if node in nodes then nodes[node] else ConnectedNode(node, None, None, now);
      entry := entry.(lastSeen := now);
      if capability.Some? {
        entry := entry.(capability := capability);
      }
      if position.Some? {
        entry := entry.(lastPosition := position);
      }
      AfterOneMore(history, Given(node, capability, position, now));
      hide AfterOps;
      nodes := nodes[node := entry];
      history := history + [Given(node, capability, position, now)];
    }

    method GetPosition(node: string) returns (p: Option<Position>)
      requires Valid()
      ensures p.Some? <==> exists i: nat :: LastPlaced(history, node, i)
      ensures forall i: nat :: LastPlaced(history, node, i) ==> p == history[i].position
    {
      p := if node in nodes then nodes[node].lastPosition else None;
      EntryIsLastGiven(history, node);
    }

    method Remove(node: string)
      requires Valid()
      modifies this
      ensures Valid() && history == old(history) + [Removed(node)]
      ensures nodes == old(nodes) - {node}
    {
      AfterOneMore(history, Removed(node));
      hide AfterOps;
      nodes := nodes - {node};
      history := history + [Removed(node)];
    }

    /** One watchdog sweep with nothing running in between: the snapshot, then a removal and an event for
        each expired node, in the arbitrary order the hash map yields. */
    method Sweep(now: nat, h: nat) returns (events: seq<SapientUpdate>)
      requires Valid()
      modifies this
      ensures Valid()
      ensures nodes == old(nodes) - SilentNodes(old(nodes), now, h)
      ensures |events| == |SilentNodes(old(nodes), now, h)|
      ensures forall n :: NodeDisconnected(n) in events <==> n in SilentNodes(old(nodes), now, h)
      ensures forall e :: e in events ==> e.NodeDisconnected?
    {
      ghost var was := nodes;
      var expired := set n | n in nodes && Silent(nodes[n], now, h);
      ghost var all := expired;
      events := [];
      while expired != {}
        invariant Valid()
        invariant expired <= all == SilentNodes(was, now, h)
        invariant nodes == was - (all - expired)
        invariant |events| + |expired| == |all|
        invariant forall n :: NodeDisconnected(n) in events <==> n in all - expired
        invariant forall e :: e in events ==> e.NodeDisconnected?
      {
        var node :| node in expired;
        Remove(node);
        events := events + [NodeDisconnected(node)];
        expired := expired - {node};
      }
    }
  }

  // ---- detection latency, with ideal ticks and atomic sweeps ----

  datatype Event =
    | Heard(node: string, at: nat)
    | Dropped(node: string, at: nat)
    | Tick(at: nat)

  function AfterEvent(nodes: Nodes, e: Event, h: nat): Nodes {
    match e
    case Heard(n, at) => Upserted(nodes, n, None, None, at)
    case Dropped(n, at) => nodes - {n}
    case Tick(at) => nodes - SilentNodes(nodes, at, h)
  }

  function AfterEvents(es: seq<Event>, h: nat): Nodes {
    if es == [] then map[] else AfterEvent(AfterEvents(es[..|es| - 1], h), es[|es| - 1], h)
  }

  /** Node `n` is reported by event `k`. */
  predicate ReportedAt(es: seq<Event>, h: nat, n: string, k: nat)
    requires k < |es|
  {
    es[k].Tick? && n in SilentNodes(AfterEvents(es[..k], h), es[k].at, h)
  }

  function Ticks(es: seq<Event>): nat {
    if es == [] then 0 else Ticks(es[..|es| - 1]) + (if es[|es| - 1].Tick? then 1 else 0)
  }

  /** The instant of tick number `j`; the watchdog started, and burnt its first tick, at `t0`. */
  function TickTime(t0: nat, h: nat, j: nat): nat { t0 + j * h }

  lemma NextTick(t0: nat, h: nat, j: nat)
    ensures TickTime(t0, h, j + 1) == TickTime(t0, h, j) + h
  {
  }

  /** Each event falls between the last tick and the next, and a tick is exactly at the next. */
  ghost predicate IdealRun(es: seq<Event>, t0: nat, h: nat) {
    forall k :: 0 <= k < |es| ==> InTickWindow(es, t0, h, k)
  }

  ghost predicate InTickWindow(es: seq<Event>, t0: nat, h: nat, k: nat)
    requires k < |es|
  {
    TickTime(t0, h, Ticks(es[..k])) <= es[k].at <= TickTime(t0, h, Ticks(es[..k]) + 1) &&
    (es[k].Tick? ==> es[k].at == TickTime(t0, h, Ticks(es[..k]) + 1))
  }

  ghost predicate SilentAfter(es: seq<Event>, p: nat, n: string) {
    forall k :: p < k < |es| && !es[k].Tick? ==> es[k].node != n
  }

  /** Before event `k` the node is registered as last heard at `s`, and every tick so far came too early. */
  ghost predicate Waiting(es: seq<Event>, t0: nat, h: nat, n: string, p: nat, s: nat, k: nat)
    requires k <= |es|
  {
    n in AfterEvents(es[..k], h) && AfterEvents(es[..k], h)[n].lastSeen == s &&
    TickTime(t0, h, Ticks(es[..k])) < s + 2 * h &&
    forall q :: p < q < k ==> !ReportedAt(es, h, n, q)
  }

  /** Event `q` is the only report of the node between `p` and `k`, and it is on time. */
  ghost predicate OnlyReport(es: seq<Event>, h: nat, n: string, p: nat, s: nat, q: nat, k: nat)
    requires k <= |es|
  {
    p < q < k && ReportedAt(es, h, n, q) && s + 2 * h <= es[q].at < s + 3 * h &&
    forall r :: p < r < k && r != q ==> !ReportedAt(es, h, n, r)
  }

  /** One event: a waiting node keeps waiting, or a tick in time reports and removes it. */
  lemma {:induction false} WaitingStep(es: seq<Event>, t0: nat, h: nat, n: string, p: nat, s: nat, k: nat)
    requires h > 0 && IdealRun(es, t0, h) && SilentAfter(es, p, n)
    requires p < k < |es| && Waiting(es, t0, h, n, p, s, k)
    ensures if ReportedAt(es, h, n, k)
      then n !in AfterEvents(es[..k + 1], h) && s + 2 * h <= es[k].at < s + 3 * h
      else Waiting(es, t0, h, n, p, s, k + 1)
  {
    var now, before := es[..k + 1], es[..k];
    assert now[..k] == before && InTickWindow(es, t0, h, k);
    NextTick(t0, h, Ticks(before));
    assert AfterEvents(now, h) == AfterEvent(AfterEvents(before, h), es[k], h);
    hide AfterEvents, TickTime;
  }

  /** A node already reported and gone stays so. */
  lemma {:induction false} GoneStep(es: seq<Event>, h: nat, n: string, p: nat, k: nat)
    requires SilentAfter(es, p, n) && p < k < |es|
    requires n !in AfterEvents(es[..k], h)
    ensures n !in AfterEvents(es[..k + 1], h) && !ReportedAt(es, h, n, k)
  {
    assert es[..k + 1][..k] == es[..k];
  }

  /** A node heard at s and silent since is reported exactly once, no earlier than s + 2h and before s + 3h. */
  lemma WatchdogLatency(es: seq<Event>, t0: nat, h: nat, n: string, p: nat) returns (q: nat)
    requires h > 0 && IdealRun(es, t0, h)
    requires p < |es| && es[p].Heard? && es[p].node == n && SilentAfter(es, p, n)
    requires es[|es| - 1].at >= es[p].at + 3 * h
    ensures OnlyReport(es, h, n, p, es[p].at, q, |es|)
  {
    var s, k := es[p].at, p + 1;
    HeardStartsWaiting(es, t0, h, n, p);
    hide Waiting, ReportedAt, AfterEvents, IdealRun, SilentAfter;
    while k < |es| && !ReportedAt(es, h, n, k)
      invariant p < k <= |es| && Waiting(es, t0, h, n, p, s, k)
    {
      WaitingStep(es, t0, h, n, p, s, k);
      k := k + 1;
    }
    if k == |es| {
      CannotWaitSoLong(es, t0, h, n, p, s);
    }
    q := k;
    WaitingStep(es, t0, h, n, p, s, k);
    NoReportBefore(es, t0, h, n, p, s, k);
    StaysGone(es, h, n, p, k + 1);
  }

  lemma {:induction false} StaysGone(es: seq<Event>, h: nat, n: string, p: nat, k: nat)
    requires SilentAfter(es, p, n) && p < k <= |es| && n !in AfterEvents(es[..k], h)
    ensures forall r :: k <= r < |es| ==> !ReportedAt(es, h, n, r)
    decreases |es| - k
  {
    hide AfterEvents, ReportedAt, SilentAfter;
    if k < |es| {
      GoneStep(es, h, n, p, k);
      StaysGone(es, h, n, p, k + 1);
    }
  }

  lemma HeardStartsWaiting(es: seq<Event>, t0: nat, h: nat, n: string, p: nat)
    requires h > 0 && IdealRun(es, t0, h) && p < |es| && es[p].Heard? && es[p].node == n
    ensures Waiting(es, t0, h, n, p, es[p].at, p + 1)
  {
    assert es[..p + 1][..p] == es[..p] && InTickWindow(es, t0, h, p);
    hide TickTime;
  }

  lemma NoReportBefore(es: seq<Event>, t0: nat, h: nat, n: string, p: nat, s: nat, k: nat)
    requires k <= |es| && Waiting(es, t0, h, n, p, s, k)
    ensures forall r :: p < r < k ==> !ReportedAt(es, h, n, r)
  {
  }

  lemma CannotWaitSoLong(es: seq<Event>, t0: nat, h: nat, n: string, p: nat, s: nat)
    requires h > 0 && IdealRun(es, t0, h) && es != [] && es[|es| - 1].at >= s + 3 * h
    ensures !Waiting(es, t0, h, n, p, s, |es|)
  {
    var last := |es| - 1;
    assert es[..|es|] == es && InTickWindow(es, t0, h, last);
    NextTick(t0, h, Ticks(es[..last]));
    hide TickTime, AfterEvents;
  }

  // ---- the sweep interleaved with the bridge ----

  /** `pending` is the snapshot not yet worked through; `removing` is the node taken out of the registry
      whose event is not out yet. `inserted` counts absent-to-present insertions, `emitted` the events. */
  datatype Watch = Watch(
    nodes: Nodes, now: nat, pending: set<string>, removing: Option<string>,
    inserted: multiset<string>, emitted: multiset<string>)

  datatype WatchAction =
    | Advance(elapsed: nat)
    | BridgeUpsert(node: string)
    | BridgeRemove(node: string)
    | TakeSnapshot
    | RemoveOne(node: string)
    | EmitOne

  predicate WatchEnabled(w: Watch, a: WatchAction) {
    match a
    case TakeSnapshot => w.pending == {} && w.removing == None
    case RemoveOne(n) => n in w.pending && w.removing == None
    case EmitOne => w.removing.Some?
    case _ => true
  }

  function WatchApply(w: Watch, a: WatchAction, h: nat): Watch
    requires WatchEnabled(w, a)
  {
    match a
    case Advance(elapsed) => w.(now := w.now + elapsed)
    case BridgeUpsert(n) =>
      w.(nodes := Upserted(w.nodes, n, None, None, w.now),
         inserted := if n in w.nodes then w.inserted else w.inserted + multiset{n})
    case BridgeRemove(n) => w.(nodes := w.nodes - {n})
    case TakeSnapshot => w.(pending := SilentNodes(w.nodes, w.now, h))
    case RemoveOne(n) => w.(nodes := w.nodes - {n}, pending := w.pending - {n}, removing := Some(n))
    case EmitOne => w.(removing := None, emitted := w.emitted + multiset{w.removing.value})
  }

  ghost predicate WatchRun(w: Watch, actions: seq<WatchAction>, h: nat, w': Watch)
    decreases |actions|
  {
    if actions == [] then w == w'
    else WatchEnabled(w, actions[0]) && WatchRun(WatchApply(w, actions[0], h), actions[1..], h, w')
  }

  /** An insertion pays for one event: the one under way, and the one the node's presence may still cause. */
  ghost predicate Paid(w: Watch, n: string) {
    w.inserted[n] >= w.emitted[n] + (if w.removing == Some(n) then 1 else 0)
                     + (if n in w.nodes || n in w.pending then 1 else 0)
  }

  lemma {:induction false} PaidThroughout(w: Watch, actions: seq<WatchAction>, h: nat, w': Watch, n: string)
    requires WatchRun(w, actions, h, w') && Paid(w, n)
    ensures Paid(w', n)
    decreases |actions|
  {
    if actions != [] { PaidThroughout(WatchApply(w, actions[0], h), actions[1..], h, w', n); }
  }

  /** However upserts and removals interleave with a sweep, a node's disconnect events never outnumber its
      insertions into the registry. */
  lemma {:induction false} DisconnectsNeverExceedInsertions(actions: seq<WatchAction>, h: nat, w: Watch, n: string)
    requires WatchRun(Watch(map[], 0, {}, None, multiset{}, multiset{}), actions, h, w)
    ensures w.emitted[n] <= w.inserted[n]
  {
    PaidThroughout(Watch(map[], 0, {}, None, multiset{}, multiset{}), actions, h, w, n);
  }

  /** How often the run's sweeps take the node out. */
  function Removals(actions: seq<WatchAction>, n: string): nat {
    if actions == [] then 0 else (if actions[0] == RemoveOne(n) then 1 else 0) + Removals(actions[1..], n)
  }

  function Reported(w: Watch, n: string): nat { w.emitted[n] + (if w.removing == Some(n) then 1 else 0) }

  lemma {:induction false} ReportsFollowRemovals(w: Watch, actions: seq<WatchAction>, h: nat, w': Watch, n: string)
    requires WatchRun(w, actions, h, w')
    ensures Reported(w', n) == Reported(w, n) + Removals(actions, n)
    decreases |actions|
  {
    if actions != [] { ReportsFollowRemovals(WatchApply(w, actions[0], h), actions[1..], h, w', n); }
  }

  /** Each node that a sweep takes out is reported, once, or is the one about to be. */
  lemma {:induction false} EachRemovalIsReported(actions: seq<WatchAction>, h: nat, w: Watch, n: string)
    requires WatchRun(Watch(map[], 0, {}, None, multiset{}, multiset{}), actions, h, w)
    ensures w.emitted[n] + (if w.removing == Some(n) then 1 else 0) == Removals(actions, n)
  {
    ReportsFollowRemovals(Watch(map[], 0, {}, None, multiset{}, multiset{}), actions, h, w, n);
  }

  lemma {:induction false} SnapshotIsWorkedThrough(w: Watch, actions: seq<WatchAction>, h: nat, w': Watch, n: string)
    requires WatchRun(w, actions, h, w') && TakeSnapshot !in actions
    ensures Removals(actions, n) + (if n in w'.pending then 1 else 0) == if n in w.pending then 1 else 0
    decreases |actions|
  {
    if actions != [] { SnapshotIsWorkedThrough(WatchApply(w, actions[0], h), actions[1..], h, w', n); }
  }

  /** A sweep takes out, once each and whatever the bridge does meanwhile, the nodes that were silent for two
      intervals when it took its snapshot, even one heard since; and no other. */
  lemma {:induction false} SweepRemovesItsSnapshot(w: Watch, actions: seq<WatchAction>, h: nat, w': Watch, n: string)
    requires WatchEnabled(w, TakeSnapshot) && WatchRun(WatchApply(w, TakeSnapshot, h), actions, h, w')
    requires TakeSnapshot !in actions && w'.pending == {}
    ensures Removals(actions, n) == if n in w.nodes && w.nodes[n].lastSeen + 2 * h <= w.now then 1 else 0
  {
    SnapshotIsWorkedThrough(WatchApply(w, TakeSnapshot, h), actions, h, w', n);
  }
}
